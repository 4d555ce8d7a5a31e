/** The pieces of JavaScript semantics the credential code leans on: values that
    may be `undefined`, truthiness, `String.prototype.split` with a one-character
    separator, `Array.prototype.pop`, array destructuring and `${...}` rendering. */
module Js {

  /** A value that may be `undefined`. */
  datatype Option<+T> = None | Some(value: T)

  /** The outcome of a call that may throw: the returned value, or the message of
      the thrown `Error`. */
  datatype Result<+T> = Ok(value: T) | Err(message: string)

  /** `!!s` for a `string | undefined`: both `undefined` and `""` are falsy. */
  predicate Truthy(s: Option<string>) {
    s.Some? && s.value != ""
  }

  /** `!!n` for a `number | undefined`: both `undefined` and `0` are falsy. */
  predicate TruthyNumber(n: Option<int>) {
    n.Some? && n.value != 0
  }

  /** What a template literal prints for a `string | undefined`. */
  function Render(s: Option<string>): string {
    if s.Some? then s.value else "undefined"
  }

  /** `s.split(sep)` for a one-character separator: always at least one piece
      (`"".split(":")` is `[""]`), and no piece contains the separator. */
  function Split(s: string, sep: char): (pieces: seq<string>)
    ensures |pieces| >= 1
    ensures forall i :: 0 <= i < |pieces| ==> sep !in pieces[i]
    decreases |s|
  {
    if s == [] then [""]
    else
      var rest := Split(s[1..], sep);
      if s[0] == sep then [""] + rest
      else [[s[0]] + rest[0]] + rest[1..]
  }

  /** `pieces.join(sep)`, the inverse of `Split`. */
  function Join(pieces: seq<string>, sep: char): string
    decreases |pieces|
  {
    if |pieces| == 0 then ""
    else if |pieces| == 1 then pieces[0]
    else pieces[0] + [sep] + Join(pieces[1..], sep)
  }

  /** `xs.pop()` read for its result: the last element, `undefined` on `[]`. */
  function Pop<T>(xs: seq<T>): (r: Option<T>)
    ensures r.Some? <==> |xs| > 0
    ensures r.Some? ==> r.value == xs[|xs| - 1]
  {
    if |xs| == 0 then None else Some(xs[|xs| - 1])
  }

  /** The `i`-th name bound by `const [a0, a1, ...] = xs`: `undefined` past the end. */
  function At<T>(xs: seq<T>, i: nat): (r: Option<T>)
    ensures r.Some? <==> i < |xs|
    ensures r.Some? ==> r.value == xs[i]
  {
    if i < |xs| then Some(xs[i]) else None
  }

  /** Splitting and joining again gives back the original string. */
  lemma {:induction false} JoinSplit(s: string, sep: char)
    ensures Join(Split(s, sep), sep) == s
    decreases |s|
  {
    if s != [] {
      var rest := Split(s[1..], sep);
      JoinSplit(s[1..], sep);
      if s[0] == sep {
        assert Split(s, sep) == [""] + rest;
        assert ([""] + rest)[1..] == rest;
      } else {
        var pieces := [[s[0]] + rest[0]] + rest[1..];
        assert Split(s, sep) == pieces;
        if |rest| == 1 {
          assert pieces == [[s[0]] + rest[0]];
        } else {
          assert pieces[1..] == rest[1..];
          assert Join(rest, sep) == rest[0] + [sep] + Join(rest[1..], sep);
        }
      }
    }
  }

  /** A string without the separator is a single piece. */
  lemma {:induction false} SplitWithoutSeparator(s: string, sep: char)
    requires sep !in s
    ensures Split(s, sep) == [s]
    decreases |s|
  {
    if s != [] {
      assert sep !in s[1..] && s[0] != sep;
      SplitWithoutSeparator(s[1..], sep);
      assert [s[0]] + s[1..] == s;
    }
  }

  /** A separator between `a` and `b` cuts exactly there. */
  lemma {:induction false} SplitAppend(a: string, sep: char, b: string)
    ensures Split(a + [sep] + b, sep) == Split(a, sep) + Split(b, sep)
    decreases |a|
  {
    if a == [] {
      assert a + [sep] + b == [sep] + b;
      SplitCons(sep, b, sep);
      assert Split(a, sep) == [""];
    } else {
      SplitAppend(a[1..], sep, b);
      SplitAppendCons(a[0], a[1..], sep, b);
      assert [a[0]] + a[1..] == a;
    }
  }

  /** The step of `SplitAppend`: one more character in front of the left part. */
  lemma SplitAppendCons(x: char, t: string, sep: char, b: string)
    requires Split(t + [sep] + b, sep) == Split(t, sep) + Split(b, sep)
    ensures Split([x] + t + [sep] + b, sep) == Split([x] + t, sep) + Split(b, sep)
  {
    assert [x] + t + [sep] + b == [x] + (t + [sep] + b);
    SplitCons(x, t + [sep] + b, sep);
    SplitCons(x, t, sep);
    ConsPieces(x, sep, Split(t, sep), Split(b, sep));
  }

  /** Putting a character in front of the pieces commutes with appending more pieces. */
  lemma ConsPieces(x: char, sep: char, left: seq<string>, right: seq<string>)
    requires |left| >= 1
    ensures (if x == sep then [""] + (left + right) else [[x] + (left + right)[0]] + (left + right)[1..]) ==
      (if x == sep then [""] + left else [[x] + left[0]] + left[1..]) + right
  {
    assert (left + right)[0] == left[0] && (left + right)[1..] == left[1..] + right;
  }

  /** One unfolding of `Split` on a string written as a first character and the rest. */
  lemma SplitCons(x: char, t: string, sep: char)
    ensures Split([x] + t, sep) ==
      if x == sep then [""] + Split(t, sep) else [[x] + Split(t, sep)[0]] + Split(t, sep)[1..]
  {
    assert ([x] + t)[0] == x && ([x] + t)[1..] == t;
  }

  /** A character absent from `s` is absent from every piece of it. */
  lemma {:induction false} PiecesAvoid(s: string, sep: char, c: char)
    requires c !in s
    ensures forall i :: 0 <= i < |Split(s, sep)| ==> c !in Split(s, sep)[i]
    decreases |s|
  {
    if s != [] {
      assert c !in s[1..];
      PiecesAvoid(s[1..], sep, c);
    }
  }
}
