/** Sealed boxes as the text the hub carries. */
module SealedText {
  import opened Basics
  import opened DaemonModel

  /** How a sealed box is written as text. The hub never looks into it. */
  datatype Codec = Codec(text: Sealed -> string, unbox: string -> Sealed)

  ghost predicate Inverts(k: Codec) {
    forall x :: k.unbox(k.text(x)) == x
  }

  // --- there is such a codec -----------------------------------------------------------------

  /** A string with a mark before every character, and another mark at the end. */
  function Marked(s: string): string {
    if s == "" then ";" else "." + [s[0]] + Marked(s[1..])
  }

  /** The string marked at the front of a text, and what follows it. */
  function Unmarked(t: string): (string, string) {
    if |t| < 2 || t[0] != '.' then ("", if t == "" then "" else t[1..])
    else
      var (s, rest) := Unmarked(t[2..]);
      ([t[1]] + s, rest)
  }

  lemma {:induction false} MarksInvert(s: string, rest: string)
    ensures Unmarked(Marked(s) + rest) == (s, rest)
  {
    var t := Marked(s) + rest;
    if s == "" {
      assert t[1..] == rest;
    } else {
      MarksInvert(s[1..], rest);
      assert t == ['.', s[0]] + (Marked(s[1..]) + rest);
      assert t[2..] == Marked(s[1..]) + rest;
      assert [s[0]] + s[1..] == s;
    }
  }

  function Chars(b: Bytes): string {
    seq(|b|, i requires 0 <= i < |b| => b[i] as char)
  }

  function Unchars(s: string): Bytes {
    seq(|s|, i requires 0 <= i < |s| => if s[i] as int < 256 then s[i] as int else 0)
  }

  lemma CharsInvert(b: Bytes)
    ensures Unchars(Chars(b)) == b
  {}

  function Write(x: Sealed): string {
    Marked(x.from) + (Marked(x.to) + Chars(x.payload))
  }

  function Read(t: string): Sealed {
    var (from, rest) := Unmarked(t);
    var (to, payload) := Unmarked(rest);
    Sealed(from, to, Unchars(payload))
  }

  /** So what is said of daemons and hub together, for every codec that inverts, is said of some. */
  lemma SomeCodecInverts()
    ensures Inverts(Codec(Write, Read))
  {
    forall x
      ensures Read(Write(x)) == x
    {
      MarksInvert(x.from, Marked(x.to) + Chars(x.payload));
      MarksInvert(x.to, Chars(x.payload));
      CharsInvert(x.payload);
    }
  }
}
