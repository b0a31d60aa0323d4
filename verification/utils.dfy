/** The console's string helpers `truncate` and `classNames`. */
module Utils {
  import opened Js

  const DefaultTruncateLength := 40
  const Ellipsis := "..."

  /**
   * `truncate(s, n)`: `s` itself when it fits in `n` characters, otherwise
   * its first `n` characters followed by "...". A negative `n` counts from
   * the end, as JavaScript's `slice` does.
   */
  function Truncate(s: string, n: int): (r: string)
    ensures |s| <= n ==> r == s
    ensures |s| > n ==> r == SliceTo(s, n) + Ellipsis
    ensures |s| > n && n >= 0 ==> |r| == n + 3 && r[..n] == s[..n] && r[n..] == Ellipsis
  {
    if |s| <= n then s else SliceTo(s, n) + Ellipsis
  }

  /** `truncate(s)` with the default limit. */
  function TruncateDefault(s: string): (r: string)
    ensures |s| <= 40 ==> r == s
    ensures |s| > 40 ==> |r| == 43 && r[..40] == s[..40]
  {
    Truncate(s, DefaultTruncateLength)
  }

  /** With a non-negative limit, truncating an already truncated string changes nothing. */
  lemma TruncateIdempotent(s: string, n: int)
    requires n >= 0
    ensures Truncate(Truncate(s, n), n) == Truncate(s, n)
  {
    if |s| > n {
      var r := Truncate(s, n);
      assert SliceTo(r, n) == s[..n];
    }
  }

  /** One argument of `classNames`: a string, `false`, `null` or `undefined`. */
  datatype ClassArg = Class(name: string) | False | Null | Undefined

  /** `Boolean(arg)`: only a non-empty string is truthy. */
  predicate Truthy(a: ClassArg) {
    a.Class? && a.name != ""
  }

  /** The truthy arguments' strings, in order. */
  function Kept(args: seq<ClassArg>): (ks: seq<string>)
    ensures |ks| <= |args|
    ensures forall i :: 0 <= i < |ks| ==> ks[i] != ""
    ensures |ks| == 0 <==> forall i :: 0 <= i < |args| ==> !Truthy(args[i])
    decreases |args|
  {
    if |args| == 0 then []
    else
      var init := Kept(args[..|args| - 1]);
      assert forall i :: 0 <= i < |args| - 1 ==> args[..|args| - 1][i] == args[i];
      if Truthy(args[|args| - 1]) then init + [args[|args| - 1].name] else init
  }

  /** `parts.join(" ")`. */
  function Join(parts: seq<string>): string
    decreases |parts|
  {
    if |parts| == 0 then ""
    else if |parts| == 1 then parts[0]
    else Join(parts[..|parts| - 1]) + " " + parts[|parts| - 1]
  }

  /** `classNames(...args)`. */
  function ClassNames(args: seq<ClassArg>): (r: string)
    ensures r == "" <==> forall i :: 0 <= i < |args| ==> !Truthy(args[i])
  {
    JoinNonEmpty(Kept(args));
    Join(Kept(args))
  }

  lemma {:induction false} JoinNonEmpty(parts: seq<string>)
    requires forall i :: 0 <= i < |parts| ==> parts[i] != ""
    ensures Join(parts) == "" <==> |parts| == 0
    decreases |parts|
  {
    if |parts| > 1 {
      JoinNonEmpty(parts[..|parts| - 1]);
    }
  }

  lemma {:induction false} KeptAppend(a: seq<ClassArg>, b: seq<ClassArg>)
    ensures Kept(a + b) == Kept(a) + Kept(b)
    decreases |b|
  {
    if |b| == 0 {
      assert a + b == a;
    } else {
      var init := b[..|b| - 1];
      assert (a + b)[..|a + b| - 1] == a + init;
      KeptAppend(a, init);
    }
  }

  /** A single argument is kept exactly when it is truthy, as its own string. */
  lemma KeptOne(a: ClassArg)
    ensures Kept([a]) == if Truthy(a) then [a.name] else []
  {
    assert [a][..0] == [];
  }

  /**
   * Of arguments that are all truthy, every string is kept, in argument
   * order; with `KeptAppend` this fixes `Kept` on every input.
   */
  lemma {:induction false} KeptAllTruthy(args: seq<ClassArg>)
    requires forall i :: 0 <= i < |args| ==> Truthy(args[i])
    ensures |Kept(args)| == |args|
    ensures forall i :: 0 <= i < |args| ==> Kept(args)[i] == args[i].name
    decreases |args|
  {
    if |args| > 0 {
      var init := args[..|args| - 1];
      KeptAllTruthy(init);
      assert args == init + [args[|args| - 1]];
      KeptAppend(init, [args[|args| - 1]]);
      KeptOne(args[|args| - 1]);
    }
  }

  /** One non-empty class name comes out as itself. */
  lemma ClassNamesOne(s: string)
    requires s != ""
    ensures ClassNames([Class(s)]) == s
  {
    KeptOne(Class(s));
  }

  /** Non-empty class names alone come out joined by single spaces, in order. */
  lemma ClassNamesOfNames(names: seq<string>)
    requires forall i :: 0 <= i < |names| ==> names[i] != ""
    ensures ClassNames(seq(|names|, i requires 0 <= i < |names| => Class(names[i]))) == Join(names)
  {
    var args := seq(|names|, i requires 0 <= i < |names| => Class(names[i]));
    KeptAllTruthy(args);
    assert Kept(args) == names;
  }

  lemma {:induction false} JoinAppend(p: seq<string>, q: seq<string>)
    requires |p| > 0 && |q| > 0
    ensures Join(p + q) == Join(p) + " " + Join(q)
    decreases |q|
  {
    if |q| == 1 {
      assert (p + q)[..|p + q| - 1] == p;
    } else {
      var init := q[..|q| - 1];
      assert (p + q)[..|p + q| - 1] == p + init;
      JoinAppend(p, init);
    }
  }

  /**
   * Splitting the arguments anywhere splits the result at one space, and an
   * all-falsy side contributes nothing, not even a space.
   */
  lemma ClassNamesAppend(a: seq<ClassArg>, b: seq<ClassArg>)
    ensures ClassNames(a + b) ==
      if ClassNames(a) == "" then ClassNames(b)
      else if ClassNames(b) == "" then ClassNames(a)
      else ClassNames(a) + " " + ClassNames(b)
  {
    KeptAppend(a, b);
    JoinNonEmpty(Kept(a));
    JoinNonEmpty(Kept(b));
    if |Kept(a)| == 0 {
      assert Kept(a + b) == Kept(b);
    } else if |Kept(b)| == 0 {
      assert Kept(a + b) == Kept(a);
    } else {
      JoinAppend(Kept(a), Kept(b));
    }
  }

  /** A falsy argument anywhere among the others leaves no trace, not even a space. */
  lemma ClassNamesSkipsFalsy(a: seq<ClassArg>, x: ClassArg, b: seq<ClassArg>)
    requires !Truthy(x)
    ensures ClassNames(a + [x] + b) == ClassNames(a + b)
  {
    KeptAppend(a + [x], b);
    KeptAppend(a, [x]);
    KeptAppend(a, b);
    assert Kept([x]) == [] by {
      assert [x][..0] == [];
    }
  }
}
