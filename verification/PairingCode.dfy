/** The hub's random pairing codes: six random bytes, as six letters with a dash in the middle. */
module PairingCode {
  import opened Basics

  const CHARS := "ABCDEFGHJKLMNPQRSTUVWXYZ23456789"

  /** The alphabet by position: A to H, J to N, P to Z, 2 to 9. */
  function Letter(k: nat): char
    requires k < 32
  {
    if k < 8 then ('A' as int + k) as char
    else if k < 13 then ('J' as int + k - 8) as char
    else if k < 24 then ('P' as int + k - 13) as char
    else ('2' as int + k - 24) as char
  }

  lemma LetterAt(k: nat)
    requires k < 32
    ensures |CHARS| == 32 && CHARS[k] == Letter(k)
  {}

  predicate InAlphabet(c: char) {
    'A' <= c <= 'H' || 'J' <= c <= 'N' || 'P' <= c <= 'Z' || '2' <= c <= '9'
  }

  /** The place of a letter in the alphabet. */
  function Place(c: char): (k: nat)
    requires InAlphabet(c)
    ensures k < 32 && Letter(k) == c
  {
    if c <= '9' then c as int - '2' as int + 24
    else if c <= 'H' then c as int - 'A' as int
    else if c <= 'N' then c as int - 'J' as int + 8
    else c as int - 'P' as int + 13
  }

  predicate WellFormed(code: string) {
    |code| == 7 && code[3] == '-' && forall i :: 0 <= i < 7 && i != 3 ==> InAlphabet(code[i])
  }

  /** Where the letter of byte i stands in the code. */
  function Slot(i: nat): nat {
    if i < 3 then i else i + 1
  }

  /** A code is the code of these bytes when every byte gives the letter in its slot. */
  ghost predicate CodeOf(b: seq<Byte>, code: string) {
    |b| == 6 && |code| == 7 && code[3] == '-' && forall i :: 0 <= i < 6 ==> code[Slot(i)] == Letter(b[i] % 32)
  }

  method RandomCode(b: seq<Byte>) returns (code: string)
    requires |b| == 6
    ensures CodeOf(b, code)
  {
    code := "";
    var i := 0;
    while i < 6
      invariant 0 <= i <= 6
      invariant |code| == if i <= 3 then i else i + 1
      invariant i > 3 ==> code[3] == '-'
      invariant forall k :: 0 <= k < i ==> code[Slot(k)] == Letter(b[k] % 32)
    {
      if i == 3 {
        code := code + "-";
      }
      LetterAt(b[i] % 32);
      code := code + [CHARS[b[i] % |CHARS|]];
      i := i + 1;
    }
  }

  lemma LetterPlace(k: nat)
    requires k < 32
    ensures InAlphabet(Letter(k)) && Place(Letter(k)) == k
  {}

  /** The bytes that give the letter in place k of the alphabet. */
  ghost function BytesFor(k: nat): set<int> {
    set b: int | 0 <= b < 256 && b % 32 == k
  }

  /** Eight bytes give each letter, so none is likelier than another. */
  lemma EightBytes(k: nat)
    requires k < 32
    ensures |BytesFor(k)| == 8
  {
    var listed := {k, k + 32, k + 64, k + 96, k + 128, k + 160, k + 192, k + 224};
    forall b: int
      ensures b in BytesFor(k) <==> b in listed
    {
    }
    assert BytesFor(k) == listed;
  }

  /** Every code is well formed, and two draws give one code exactly when every byte agrees in
      its low five bits. */
  lemma SameCodeIff(b: seq<Byte>, code: string, b': seq<Byte>, code': string)
    requires CodeOf(b, code) && CodeOf(b', code')
    ensures WellFormed(code)
    ensures code == code' <==> forall i :: 0 <= i < 6 ==> b[i] % 32 == b'[i] % 32
  {
    forall i | 0 <= i < 6
      ensures InAlphabet(code[Slot(i)])
      ensures code[Slot(i)] == code'[Slot(i)] <==> b[i] % 32 == b'[i] % 32
    {
      LetterPlace(b[i] % 32);
      LetterPlace(b'[i] % 32);
    }
    forall j | 0 <= j < 7 && j != 3
      ensures InAlphabet(code[j])
      ensures (forall i :: 0 <= i < 6 ==> b[i] % 32 == b'[i] % 32) ==> code[j] == code'[j]
    {
      var i := if j < 3 then j else j - 1;
      assert j == Slot(i);
    }
  }

  /** And every well-formed code can be drawn. */
  lemma EveryCodeDrawn(code: string) returns (b: seq<Byte>)
    requires WellFormed(code)
    ensures CodeOf(b, code)
  {
    b := seq(6, i requires 0 <= i < 6 => Place(code[Slot(i)]));
    forall i | 0 <= i < 6
      ensures code[Slot(i)] == Letter(b[i] % 32)
    {
      assert b[i] == Place(code[Slot(i)]);
    }
  }
}
