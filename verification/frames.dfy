/**
 * The environment of the newer interpreter. Its implementation (the `env`
 * module) is not part of this model; what `eval` relies on is stated here
 * as an assumption: an environment is a non-empty stack of frames, the
 * innermost last; lookup searches from the innermost frame outwards,
 * assignment writes into the innermost frame, and `extend` pushes a fresh
 * empty frame on top of the caller's stack.
 */
module Frames {
  import opened Wrappers
  import opened Values

  type Frame = map<string, Object>

  type Env = frames: seq<Frame> | |frames| > 0 witness [map[]]

  /** `Env::new`: one empty frame. */
  function New(): (e: Env)
    ensures |e| == 1 && forall name :: Get(e, name).None?
  {
    [map[]]
  }

  /** `Env::get`: the binding in the innermost frame that has one. */
  function Get(frames: seq<Frame>, name: string): Option<Object>
    decreases |frames|
  {
    if |frames| == 0 then None
    else if name in frames[|frames| - 1] then Some(frames[|frames| - 1][name])
    else Get(frames[..|frames| - 1], name)
  }

  /** A lookup finds nothing exactly when no frame binds the name. */
  lemma {:induction false} GetNone(frames: seq<Frame>, name: string)
    ensures Get(frames, name).None? <==> forall k :: 0 <= k < |frames| ==> name !in frames[k]
    decreases |frames|
  {
    if |frames| > 0 && name !in frames[|frames| - 1] {
      var outer := frames[..|frames| - 1];
      GetNone(outer, name);
      assert forall k :: 0 <= k < |outer| ==> outer[k] == frames[k];
    }
  }

  /** A lookup that finds a value finds it in the innermost frame binding the name. */
  lemma {:induction false} GetInnermost(frames: seq<Frame>, name: string) returns (k: nat)
    requires Get(frames, name).Some?
    ensures k < |frames| && name in frames[k] && frames[k][name] == Get(frames, name).value
    ensures forall j :: k < j < |frames| ==> name !in frames[j]
    decreases |frames|
  {
    if name in frames[|frames| - 1] {
      k := |frames| - 1;
    } else {
      var outer := frames[..|frames| - 1];
      k := GetInnermost(outer, name);
      assert outer[k] == frames[k];
      forall j | k < j < |frames| ensures name !in frames[j] {
        if j < |frames| - 1 {
          assert outer[j] == frames[j];
        }
      }
    }
  }

  /** Same depth, and every frame but the innermost is untouched. */
  predicate SameOuter(a: seq<Frame>, b: seq<Frame>) {
    |a| == |b| && |a| > 0 && a[..|a| - 1] == b[..|b| - 1]
  }

  /** `Env::set`: bind `name` in the innermost frame. */
  function Set(e: Env, name: string, v: Object): (r: Env)
    ensures Get(r, name) == Some(v)
    ensures forall other :: other != name ==> Get(r, other) == Get(e, other)
    ensures SameOuter(e, r)
  {
    var r := e[..|e| - 1] + [e[|e| - 1][name := v]];
    forall other | other != name ensures Get(r, other) == Get(e, other) {
      assert r[..|r| - 1] == e[..|e| - 1];
    }
    r
  }

  /** `Env::extend`: a new empty innermost frame over the caller's stack. */
  function Extend(e: Env): (r: Env)
    ensures |r| == |e| + 1 && r[..|e|] == e && r[|e|] == map[]
    ensures forall name :: Get(r, name) == Get(e, name)
  {
    var r := e + [map[]];
    assert r[..|r| - 1] == e;
    r
  }

  /** Drop the innermost frame, as leaving a call does. */
  function Pop(e: Env): (r: Env)
    requires |e| >= 2
    ensures |r| == |e| - 1 && forall k :: 0 <= k < |r| ==> r[k] == e[k]
  {
    e[..|e| - 1]
  }

  /** Bind each name to the value at the same position, in order. */
  function BindAll(e: Env, names: seq<string>, vals: seq<Object>): (r: Env)
    requires |names| == |vals|
    ensures SameOuter(e, r)
    decreases |names|
  {
    if |names| == 0 then e
    else
      var last := |names| - 1;
      var inner := BindAll(e, names[..last], vals[..last]);
      var r := Set(inner, names[last], vals[last]);
      SameOuterTrans(e, inner, r);
      r
  }

  /**
   * After binding, a name that occurs for the last time at position `i`
   * has the value at position `i`, and a name that does not occur keeps
   * its old binding.
   */
  lemma {:induction false} BindAllBinds(e: Env, names: seq<string>, vals: seq<Object>)
    requires |names| == |vals|
    ensures forall i :: 0 <= i < |names| && names[i] !in names[i + 1..] ==>
      Get(BindAll(e, names, vals), names[i]) == Some(vals[i])
    ensures forall name :: name !in names ==> Get(BindAll(e, names, vals), name) == Get(e, name)
    decreases |names|
  {
    if |names| > 0 {
      var last := |names| - 1;
      BindAllBinds(e, names[..last], vals[..last]);
      var inner := BindAll(e, names[..last], vals[..last]);
      var r := BindAll(e, names, vals);
      assert r == Set(inner, names[last], vals[last]);
      forall i | 0 <= i < |names| && names[i] !in names[i + 1..]
        ensures Get(r, names[i]) == Some(vals[i])
      {
        if i < last {
          assert names[last] in names[i + 1..];
          assert names[..last][i] == names[i] && vals[..last][i] == vals[i];
          assert names[..last][i + 1..] == names[i + 1..last];
        }
      }
      forall name | name !in names ensures Get(r, name) == Get(e, name) {
        assert forall k :: 0 <= k < last ==> names[..last][k] == names[k];
        assert name !in names[..last];
      }
    }
  }

  /** Leaving a frame undoes entering it. */
  lemma PopExtend(e: Env)
    ensures Pop(Extend(e)) == e
  {
  }

  /** A stack whose outer frames are those of an extended `e` pops back to `e`. */
  lemma PopSameOuter(e: Env, inner: Env)
    requires SameOuter(Extend(e), inner)
    ensures Pop(inner) == e
  {
    assert Extend(e)[..|e|] == e;
  }

  /** Assigning twice to a name keeps only the second value. */
  lemma SetSet(e: Env, name: string, v: Object, w: Object)
    ensures Set(Set(e, name, v), name, w) == Set(e, name, w)
  {
    var once := Set(e, name, v);
    assert once[..|once| - 1] == e[..|e| - 1];
    assert once[|once| - 1] == e[|e| - 1][name := v];
    assert once[|once| - 1][name := w] == e[|e| - 1][name := w];
  }

  lemma SameOuterTrans(a: seq<Frame>, b: seq<Frame>, c: seq<Frame>)
    requires SameOuter(a, b) && SameOuter(b, c)
    ensures SameOuter(a, c)
  {
  }
}
