/** Command-line argument helpers: `getFlag`, positional arguments and `join`. */
module Args {
  import opened Wrappers

  /** The position of the first occurrence of `x`, as `indexOf` finds it. */
  function IndexOf(args: seq<string>, x: string): (r: Option<nat>)
    ensures r.None? <==> x !in args
    ensures r.Some? ==> r.value < |args| && args[r.value] == x && x !in args[..r.value]
  {
    if |args| == 0 then None
    else if args[0] == x then Some(0)
    else
      match IndexOf(args[1..], x)
      case None => None
      case Some(i) =>
        assert args[..i + 1] == [args[0]] + args[1..][..i];
        Some(i + 1)
  }

  /**
   * What `args[idx + 1]` evaluates to in getFlag: `null` when the flag does
   * not occur, `undefined` when it is the last argument, a string otherwise.
   */
  datatype FlagValue = Absent | NoValue | Present(value: string)

  function GetFlag(args: seq<string>, flag: string): (r: FlagValue)
    ensures r.Absent? <==> flag !in args
    ensures forall i :: 0 <= i < |args| && args[i] == flag && flag !in args[..i] ==>
      r == if i + 1 < |args| then Present(args[i + 1]) else NoValue
  {
    match IndexOf(args, flag)
    case None => Absent
    case Some(i) =>
      if i + 1 < |args| then Present(args[i + 1]) else NoValue
  }

  /** A flag followed by a value yields that value; later occurrences do not matter. */
  lemma {:induction false} FirstOccurrenceWins(pre: seq<string>, flag: string, v: string, post: seq<string>)
    requires flag !in pre
    ensures GetFlag(pre + [flag, v] + post, flag) == Present(v)
  {
    var args := pre + [flag, v] + post;
    assert args[|pre|] == flag && args[|pre| + 1] == v;
    assert args[..|pre|] == pre;
  }

  /** A flag given as the very last argument yields no value. */
  lemma {:induction false} TrailingFlagHasNoValue(pre: seq<string>, flag: string)
    requires flag !in pre
    ensures GetFlag(pre + [flag], flag) == NoValue
  {
    var args := pre + [flag];
    assert args[|pre|] == flag;
    assert args[..|pre|] == pre;
  }

  /**
   * A flag's value as a JavaScript condition sees it: `null`, `undefined`
   * and `""` are all falsy, so only a non-empty string counts as given.
   */
  function Given(args: seq<string>, flag: string): Option<string> {
    match GetFlag(args, flag)
    case Present(v) => if v != "" then Some(v) else None
    case _ => None
  }

  /** `args[i]` tested for truthiness: out of range is `undefined`, `""` is falsy. */
  function ArgAt(args: seq<string>, i: nat): Option<string> {
    if i < |args| && args[i] != "" then Some(args[i]) else None
  }

  /** `xs.join(sep)`. */
  function Join(xs: seq<string>, sep: string): string {
    if |xs| == 0 then ""
    else if |xs| == 1 then xs[0]
    else xs[0] + sep + Join(xs[1..], sep)
  }

  function TotalLength(xs: seq<string>): nat {
    if |xs| == 0 then 0 else |xs[0]| + TotalLength(xs[1..])
  }

  /** The joined string holds every piece and one separator between each two. */
  lemma {:induction false} JoinLength(xs: seq<string>, sep: string)
    ensures |Join(xs, sep)| == TotalLength(xs) + (if |xs| == 0 then 0 else (|xs| - 1) * |sep|)
  {
    if |xs| > 1 {
      JoinLength(xs[1..], sep);
    }
  }

  /**
   * With a non-empty separator the join is empty exactly when there is no
   * piece or a single empty one: `["", ""]` joins to a lone separator.
   */
  lemma JoinIsEmpty(xs: seq<string>, sep: string)
    requires sep != ""
    ensures Join(xs, sep) == "" <==> xs == [] || xs == [""]
  {
    JoinLength(xs, sep);
    if |xs| == 1 {
      assert xs == [xs[0]];
    }
  }
}
