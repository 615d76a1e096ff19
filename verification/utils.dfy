/**
 * The helpers of the repository-listing client: the key-path walk through
 * nested mappings, and the attribute name under which `memoize` caches a
 * property (the caching itself lives in the client class, on the one
 * property it decorates).
 */
module Utils {
  import opened Wrappers
  import opened JsonValues

  /**
   * What walking `path` from `value` yields: the first key is looked up
   * first, and the first lookup that raises ends the walk with its error.
   */
  function Walk(value: Json, path: seq<string>): Result<Json, Exception>
  {
    if path == [] then Ok(value)
    else match Subscript(value, path[0])
      case Err(e) => Err(e)
      case Ok(next) => Walk(next, path[1..])
  }

  /** Continue a walk that stopped at `r` along `rest`, keeping an earlier failure. */
  function ContinueWalk(r: Result<Json, Exception>, rest: seq<string>): Result<Json, Exception>
  {
    match r
    case Err(e) => Err(e)
    case Ok(v) => Walk(v, rest)
  }

  /** Walking `p + q` is walking `p`, then walking `q` from wherever `p` ended. */
  lemma {:induction false} WalkAppend(value: Json, p: seq<string>, q: seq<string>)
    ensures Walk(value, p + q) == ContinueWalk(Walk(value, p), q)
  {
    if p == [] {
      assert p + q == q;
    } else {
      assert (p + q)[0] == p[0];
      assert (p + q)[1..] == p[1..] + q;
      match Subscript(value, p[0])
      case Err(e) =>
      case Ok(next) => WalkAppend(next, p[1..], q);
    }
  }

  /** Path composition: one more key is one more subscript of the shorter walk's result. */
  lemma PathComposition(value: Json, p: seq<string>, k: string)
    ensures Walk(value, p + [k]) ==
            match Walk(value, p)
            case Err(e) => Err(e)
            case Ok(v) => Subscript(v, k)
  {
    WalkAppend(value, p, [k]);
    match Walk(value, p)
    case Err(e) =>
    case Ok(v) =>
      assert [k][1..] == [];
      match Subscript(v, k)
      case Err(e) =>
      case Ok(next) => assert Walk(next, []) == Ok(next);
  }

  /** The empty path returns the starting value itself. */
  lemma EmptyPathIsIdentity(value: Json)
    ensures Walk(value, []) == Ok(value)
  {
  }

  /**
   * The walk never substitutes a default: it succeeds exactly when every key
   * is present in a mapping reached by the keys before it, and otherwise it
   * fails with the error of the first lookup that fails.
   */
  lemma {:induction false} WalkFailsAtFirstBadKey(value: Json, path: seq<string>, i: nat)
    requires i < |path|
    requires Walk(value, path[..i]).Ok?
    requires Subscript(Walk(value, path[..i]).value, path[i]).Err?
    ensures Walk(value, path) == Err(Subscript(Walk(value, path[..i]).value, path[i]).error)
    ensures Walk(value, path).error ==
            (if Walk(value, path[..i]).value.JObject? then KeyError(path[i]) else TypeError)
  {
    assert path == path[..i] + path[i..];
    WalkAppend(value, path[..i], path[i..]);
    assert path[i..][0] == path[i];
  }

  /**
   * `access_nested_map`: a cursor starts at the given mapping and is
   * replaced by `cursor[key]` for each key in turn; the input is a value
   * and is never changed.
   */
  method AccessNestedMap(nestedMap: Json, path: seq<string>) returns (r: Result<Json, Exception>)
    ensures r == Walk(nestedMap, path)
  {
    var current := nestedMap;
    var i := 0;
    while i < |path|
      invariant 0 <= i <= |path|
      invariant Walk(nestedMap, path[..i]) == Ok(current)
    {
      var step := Subscript(current, path[i]);
      PathComposition(nestedMap, path[..i], path[i]);
      assert path[..i + 1] == path[..i] + [path[i]];
      if step.Err? {
        WalkFailsAtFirstBadKey(nestedMap, path, i);
        return Err(step.error);
      }
      current := step.value;
      i := i + 1;
    }
    assert path[..i] == path;
    r := Ok(current);
  }

  /** The attribute `memoize` stores a property's value under: "_" followed by the method's name. */
  function MemoAttribute(methodName: string): (attr: string)
    ensures |attr| == |methodName| + 1 && attr[0] == '_' && attr[1..] == methodName
  {
    "_" + methodName
  }
}
