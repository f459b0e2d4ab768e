/**
  The request's query parameters, in the order they appear in the URL.
  A key may repeat (`?hba1c=5.2&hba1c=7`); `args.get(key)` on the
  framework's multi-valued dictionary answers with the first value.
*/
module QueryArgs {
  import opened PyValues

  type Args = seq<(string, string)>

  /** No parameter has the key `key`. */
  predicate Lacks(args: Args, key: string)
  {
    forall k :: 0 <= k < |args| ==> args[k].0 != key
  }

  /** `args.get(key)`: the value of the first parameter named `key`,
      or None when there is none. */
  function Get(args: Args, key: string): (r: Option<string>)
    ensures r.None? <==> Lacks(args, key)
    ensures r.Some? ==>
      exists k :: 0 <= k < |args| && args[k] == (key, r.value) && Lacks(args[..k], key)
  {
    if args == [] then None
    else if args[0].0 == key then
      assert args[0] == (key, args[0].1) && Lacks(args[..0], key);
      Some(args[0].1)
    else
      var r := Get(args[1..], key);
      if r.Some? then
        var k :| 0 <= k < |args[1..]| && args[1..][k] == (key, r.value) && Lacks(args[1..][..k], key);
        assert args[k + 1] == (key, r.value);
        assert args[..k + 1] == [args[0]] + args[1..][..k];
        r
      else
        r
  }

  /** Parameters under other keys, before or after, do not change the answer. */
  lemma {:induction false} GetIgnoresOtherKeys(before: Args, after: Args, key: string, value: string)
    requires Lacks(before, key)
    ensures Get(before + [(key, value)] + after, key) == Some(value)
  {
    if before != [] {
      assert (before + [(key, value)] + after)[1..] == before[1..] + [(key, value)] + after;
      GetIgnoresOtherKeys(before[1..], after, key, value);
    }
  }
}
