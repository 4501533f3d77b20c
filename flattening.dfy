/** The flattening of variadic arguments (`Arr::flatten` with unbounded
    depth), used by `get(...$columns)` for column names and by the EagerLoad
    criterion for relation names. */
module Flattening {

  /** One argument of a variadic call: a name, or an array of arguments that
      may itself nest further arrays. */
  datatype Arg = Name(name: string) | Nested(items: seq<Arg>)

  /** All names in `args`, depth first, left to right. */
  function Flatten(args: seq<Arg>): (r: seq<string>)
    decreases args
  {
    if args == [] then []
    else
      var head := match args[0]
        case Name(n) => [n]
        case Nested(items) => Flatten(items);
      head + Flatten(args[1..])
  }

  /** How many times `x` occurs in `names`. */
  function Count(names: seq<string>, x: string): nat
  {
    if names == [] then 0 else (if names[0] == x then 1 else 0) + Count(names[1..], x)
  }

  /** How many leaves of the argument tree are the name `x`: an independent
      reference for what flattening must keep. */
  function Occurrences(args: seq<Arg>, x: string): nat
    decreases args
  {
    if args == [] then 0
    else
      var here := match args[0]
        case Name(n) => if n == x then 1 else 0
        case Nested(items) => Occurrences(items, x);
      here + Occurrences(args[1..], x)
  }

  /** Whether every argument is already a plain name (no nesting). */
  predicate AllNames(args: seq<Arg>)
  {
    forall i :: 0 <= i < |args| ==> args[i].Name?
  }

  /** Flattening distributes over concatenation of the argument list, so the
      left-to-right order of the arguments is the order of the result. */
  lemma {:induction false} FlattenAppend(a: seq<Arg>, b: seq<Arg>)
    ensures Flatten(a + b) == Flatten(a) + Flatten(b)
    decreases a
  {
    if a == [] {
      assert a + b == b;
    } else {
      assert (a + b)[0] == a[0];
      assert (a + b)[1..] == a[1..] + b;
      FlattenAppend(a[1..], b);
    }
  }

  lemma {:induction false} CountAppend(s: seq<string>, t: seq<string>, x: string)
    ensures Count(s + t, x) == Count(s, x) + Count(t, x)
  {
    if s == [] {
      assert s + t == t;
    } else {
      assert (s + t)[1..] == s[1..] + t;
      CountAppend(s[1..], t, x);
    }
  }

  /** Flattening does not deduplicate: every name appears in the result as many
      times as it appears anywhere in the nested arguments. */
  lemma {:induction false} FlattenKeepsDuplicates(args: seq<Arg>, x: string)
    ensures Count(Flatten(args), x) == Occurrences(args, x)
    decreases args
  {
    if args != [] {
      var head := match args[0]
        case Name(n) => [n]
        case Nested(items) => Flatten(items);
      CountAppend(head, Flatten(args[1..]), x);
      FlattenKeepsDuplicates(args[1..], x);
      match args[0]
      case Name(n) =>
        assert Count(head, x) == (if n == x then 1 else 0) by {
          assert head[1..] == [];
        }
      case Nested(items) =>
        FlattenKeepsDuplicates(items, x);
    }
  }

  /** Arguments that are already flat come out unchanged, in the same order. */
  lemma {:induction false} FlattenOfNames(args: seq<Arg>)
    requires AllNames(args)
    ensures |Flatten(args)| == |args|
    ensures forall i :: 0 <= i < |args| ==> Flatten(args)[i] == args[i].name
  {
    if args != [] {
      FlattenOfNames(args[1..]);
    }
  }

  /** The result is empty exactly when no name occurs in the arguments
      (only empty arrays, at any depth). */
  lemma {:induction false} FlattenEmpty(args: seq<Arg>)
    ensures Flatten(args) == [] <==> forall x :: Occurrences(args, x) == 0
  {
    if Flatten(args) == [] {
      forall x ensures Occurrences(args, x) == 0 {
        FlattenKeepsDuplicates(args, x);
      }
    } else {
      var x := Flatten(args)[0];
      FlattenKeepsDuplicates(args, x);
      assert Count(Flatten(args), x) > 0;
    }
  }
}
