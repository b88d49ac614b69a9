/** Values shared by every part of the model: document ids, optional values,
    opaque call results, and the comma join that error messages go through. */
module Common {

  /** A MongoDB ObjectId. Ids are compared only for equality and printed in URLs. */
  type Id = nat

  datatype Option<+T> = None | Some(value: T)

  /** The outcome of a call into code outside the model (passport, passport-local-mongoose):
      either a value or the message of the error it raised. */
  datatype Result<+T> = Ok(value: T) | Err(message: string)

  function Lookup<K, V>(m: map<K, V>, k: K): (r: Option<V>)
    ensures r.Some? <==> k in m
    ensures r.Some? ==> r.value == m[k]
  {
    if k in m then Some(m[k]) else None
  }

  /** Decimal text of an id, as it appears in a URL such as /campgrounds/<id>. */
  function NatText(n: nat): string
    decreases n
  {
    if n < 10 then ["0123456789"[n]] else NatText(n / 10) + ["0123456789"[n % 10]]
  }

  /** `parts.join(sep)` of JavaScript. */
  function Join(parts: seq<string>, sep: char): (r: string)
    ensures |parts| == 1 ==> r == parts[0]
    ensures parts == [] ==> r == ""
    ensures |parts| > 0 ==> parts[0] <= r
  {
    if |parts| == 0 then ""
    else if |parts| == 1 then parts[0]
    else parts[0] + [sep] + Join(parts[1..], sep)
  }

  /** `s.split(sep)` of JavaScript: the pieces between separators, never an empty list. */
  function Split(s: string, sep: char): (r: seq<string>)
    ensures |r| >= 1
    decreases |s|
  {
    if s == [] then [""]
    else if s[0] == sep then [""] + Split(s[1..], sep)
    else
      var rest := Split(s[1..], sep);
      [[s[0]] + rest[0]] + rest[1..]
  }

  lemma {:induction false} SplitWithoutSeparator(p: string, sep: char)
    requires sep !in p
    ensures Split(p, sep) == [p]
    decreases |p|
  {
    if p != [] {
      SplitWithoutSeparator(p[1..], sep);
      assert [p[0]] + p[1..] == p;
    }
  }

  lemma {:induction false} SplitAfterPiece(p: string, t: string, sep: char)
    requires sep !in p
    ensures Split(p + [sep] + t, sep) == [p] + Split(t, sep)
    decreases |p|
  {
    if p == [] {
      assert p + [sep] + t == [sep] + t;
      assert ([sep] + t)[1..] == t;
    } else {
      SplitAfterPiece(p[1..], t, sep);
      assert (p + [sep] + t)[1..] == p[1..] + [sep] + t;
      assert [p[0]] + p[1..] == p;
    }
  }

  /** A list of messages that contain no separator survives the join: splitting the
      joined text gives the list back. */
  lemma {:induction false} SplitJoin(parts: seq<string>, sep: char)
    requires |parts| >= 1
    requires forall i :: 0 <= i < |parts| ==> sep !in parts[i]
    ensures Split(Join(parts, sep), sep) == parts
    decreases |parts|
  {
    if |parts| == 1 {
      SplitWithoutSeparator(parts[0], sep);
    } else {
      SplitJoin(parts[1..], sep);
      SplitAfterPiece(parts[0], Join(parts[1..], sep), sep);
      assert [parts[0]] + parts[1..] == parts;
    }
  }
}
