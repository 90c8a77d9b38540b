/** String helpers: the GLib splitting and joining routines that the key agent and its KMS module rely on. */
module Strings {

  /** The optional value used wherever the source passes a pointer that may be NULL. */
  datatype Option<+T> = None | Some(value: T)

  type byte = x: int | 0 <= x < 256
  type Bytes = seq<byte>

  predicate Free(s: string, c: char) {
    c !in s
  }

  /** `g_strsplit(s, sep, -1)`: the empty string yields no token, anything else yields one token per piece. */
  function Split(s: string, sep: char): (tokens: seq<string>) {
    if s == "" then [] else Pieces(s, sep)
  }

  function Pieces(s: string, sep: char): (pieces: seq<string>)
    ensures |pieces| >= 1
  {
    if s == "" then [""]
    else
      var rest := Pieces(s[1..], sep);
      if s[0] == sep then [""] + rest else [[s[0]] + rest[0]] + rest[1..]
  }

  /** `g_strjoinv(glue, parts)`. */
  function Join(glue: string, parts: seq<string>): (s: string) {
    if |parts| == 0 then ""
    else if |parts| == 1 then parts[0]
    else parts[0] + glue + Join(glue, parts[1..])
  }

  lemma {:induction false} PiecesOfFree(s: string, sep: char)
    requires Free(s, sep)
    ensures Pieces(s, sep) == [s]
  {
    if s != "" {
      PiecesOfFree(s[1..], sep);
      assert [s[0]] + s[1..] == s;
    }
  }

  lemma {:induction false} PiecesOfCons(a: string, b: string, sep: char)
    requires Free(a, sep)
    ensures Pieces(a + [sep] + b, sep) == [a] + Pieces(b, sep)
  {
    var s := a + [sep] + b;
    if a == "" {
      assert s[1..] == b;
    } else {
      PiecesOfCons(a[1..], b, sep);
      assert s[1..] == a[1..] + [sep] + b;
      assert [a[0]] + a[1..] == a;
    }
  }

  /** Splitting what was joined gives the parts back, provided no part contains the separator. */
  lemma {:induction false} SplitOfJoin(parts: seq<string>, sep: char)
    requires |parts| >= 1
    requires forall i :: 0 <= i < |parts| ==> Free(parts[i], sep)
    ensures Pieces(Join([sep], parts), sep) == parts
  {
    if |parts| == 1 {
      PiecesOfFree(parts[0], sep);
      assert parts == [parts[0]];
    } else {
      SplitOfJoin(parts[1..], sep);
      PiecesOfCons(parts[0], Join([sep], parts[1..]), sep);
      assert parts == [parts[0]] + parts[1..];
    }
  }

  /** No piece contains the separator. */
  lemma {:induction false} PiecesAreFree(s: string, sep: char)
    ensures forall i :: 0 <= i < |Pieces(s, sep)| ==> Free(Pieces(s, sep)[i], sep)
  {
    if s != "" {
      PiecesAreFree(s[1..], sep);
    }
  }
}
