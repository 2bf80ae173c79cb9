/**
 Opening a managed path one component at a time, keeping a handle on every directory on the way.

 A component may be opened under another name than the one it has (a short name, another case), so what is
 opened is checked against its pinned parent, and the whole path once at the end.
*/
module PinnedChains {
  import opened Wrappers

  type Path = seq<string>
  type Handle = nat

  datatype Node = Directory | File | Reparse

  datatype Pin = Pin(path: Path, handle: Handle)

  function HandlesOf(chain: seq<Pin>): set<Handle> {
    set p | p in chain :: p.handle
  }

  /** Every pin is a child of the one before. */
  ghost predicate Linked(chain: seq<Pin>) {
    forall i :: 0 < i < |chain| ==>
      |chain[i].path| == |chain[i - 1].path| + 1 && chain[i].path[..|chain[i - 1].path|] == chain[i - 1].path
  }

  ghost predicate Distinct(chain: seq<Pin>) {
    forall i, j :: 0 <= i < j < |chain| ==> chain[i].handle != chain[j].handle
  }

  /** Only the end of a linked chain has to be compared with the path asked for. */
  lemma {:induction false} EndDeterminesChain(chain: seq<Pin>, target: Path, i: nat)
    requires Linked(chain) && i < |chain| && chain[|chain| - 1].path == target
    ensures |chain[i].path| == |target| - (|chain| - 1 - i) && chain[i].path == target[..|chain[i].path|]
    decreases |chain| - i
  {
    if i + 1 < |chain| {
      EndDeterminesChain(chain, target, i + 1);
      assert chain[i].path == chain[i + 1].path[..|chain[i].path|];
      assert target[..|chain[i + 1].path|][..|chain[i].path|] == target[..|chain[i].path|];
    }
  }

  /** A directory all the way down, and at the end what was asked for; never a reparse point. */
  ghost predicate Pinned(world: map<Path, Node>, chain: seq<Pin>, root: Path, target: Path, leaf: Node) {
    && |root| < |target| && |chain| == |target| - |root| + 1 && chain[0].path == root && Distinct(chain)
    && (forall i :: 0 <= i < |chain| ==> chain[i].path == target[..|root| + i])
    && (forall i :: 0 < i < |chain| - 1 ==> chain[i].path in world && world[chain[i].path] == Directory)
    && target in world && world[target] == leaf && leaf != Reparse
  }

  /** The directories on the way and the target itself are what they have to be. */
  ghost predicate Leads(world: map<Path, Node>, root: Path, target: Path, leaf: Node) {
    && (forall i :: |root| < i < |target| ==> target[..i] in world && world[target[..i]] == Directory)
    && target in world && world[target] == leaf
  }

  lemma PinnedLeads(world: map<Path, Node>, chain: seq<Pin>, root: Path, target: Path, leaf: Node)
    requires Pinned(world, chain, root, target, leaf)
    ensures Leads(world, root, target, leaf)
  {
    forall i | |root| < i < |target|
      ensures target[..i] in world && world[target[..i]] == Directory
    {
      assert chain[i - |root|].path == target[..i];
    }
  }

  /** A chain on its way from `root`, as deep as `i` components of `target`. */
  ghost predicate Growing(world: map<Path, Node>, chain: seq<Pin>, root: Path, target: Path, leaf: Node, i: nat) {
    && |root| <= i <= |target| && |chain| == i - |root| + 1 && chain[0].path == root
    && Linked(chain) && Distinct(chain)
    && forall k :: 0 < k < |chain| ==>
         chain[k].path in world && world[chain[k].path] == if k == |target| - |root| then leaf else Directory
  }

  lemma GrowsLinked(chain: seq<Pin>, child: Pin)
    requires Linked(chain) && chain != []
    requires var last := chain[|chain| - 1].path; |child.path| == |last| + 1 && child.path[..|last|] == last
    ensures Linked(chain + [child])
  {
    var longer := chain + [child];
    forall i | 0 < i < |longer|
      ensures |longer[i].path| == |longer[i - 1].path| + 1
      ensures longer[i].path[..|longer[i - 1].path|] == longer[i - 1].path
    {
      assert longer[i - 1] == chain[i - 1];
      assert i < |chain| ==> longer[i] == chain[i];
    }
  }

  lemma GrowsDistinct(chain: seq<Pin>, child: Pin)
    requires Distinct(chain) && child.handle !in HandlesOf(chain)
    ensures Distinct(chain + [child]) && HandlesOf(chain + [child]) == HandlesOf(chain) + {child.handle}
  {
    forall k | 0 <= k < |chain|
      ensures chain[k].handle in HandlesOf(chain)
    {
      assert chain[k] in chain;
    }
  }

  lemma Grow(world: map<Path, Node>, chain: seq<Pin>, root: Path, target: Path, leaf: Node, i: nat, child: Pin)
    requires Growing(world, chain, root, target, leaf, i) && i < |target| && child.handle !in HandlesOf(chain)
    requires var last := chain[|chain| - 1].path; |child.path| == |last| + 1 && child.path[..|last|] == last
    requires child.path in world && world[child.path] == if i == |target| - 1 then leaf else Directory
    ensures Growing(world, chain + [child], root, target, leaf, i + 1)
    ensures HandlesOf(chain + [child]) == HandlesOf(chain) + {child.handle}
  {
    GrowsLinked(chain, child);
    GrowsDistinct(chain, child);
    hide Linked, Distinct, HandlesOf;
  }

  lemma Grown(world: map<Path, Node>, chain: seq<Pin>, root: Path, target: Path, leaf: Node)
    requires Growing(world, chain, root, target, leaf, |target|) && root < target && leaf != Reparse
    requires chain[|chain| - 1].path == target
    ensures Pinned(world, chain, root, target, leaf)
  {
    forall k | 0 <= k < |chain|
      ensures chain[k].path == target[..|root| + k]
    {
      EndDeterminesChain(chain, target, k);
    }
  }

  class Opener {
    const world: map<Path, Node>
    var handles: set<Handle>
    var leaked: bool
    const calm: bool

    constructor (world: map<Path, Node>, calm: bool)
      ensures this.world == world && this.calm == calm && handles == {} && !leaked
    {
      this.world, this.calm := world, calm;
      handles, leaked := {}, false;
    }

    /** On a calm system nothing fails, and a component is found under the name it was opened by. */
    method Flaky() returns (failed: bool)
      ensures calm ==> !failed
    {
      failed := *;
      failed := failed && !calm;
    }

    method CloseHandle(h: Handle) returns (ok: bool)
      modifies this
      ensures (old(leaked) ==> leaked) && (leaked || handles == old(handles) - {h})
      ensures ok ==> leaked == old(leaked)
    {
      ok := *;
      if ok {
        handles := handles - {h};
      } else {
        leaked := true;
      }
    }

    method OpenHandle() returns (h: Option<Handle>)
      modifies this
      ensures leaked == old(leaked) && (h.None? ==> handles == old(handles))
      ensures h.Some? ==> h.value !in old(handles) && handles == old(handles) + {h.value}
      ensures calm ==> h.Some?
    {
      var failed := Flaky();
      if failed {
        return None;
      }
      FreshExists(handles);
      var candidate: nat :| candidate !in handles;
      handles := handles + {candidate};
      return Some(candidate);
    }

    /** Opens one component below `parent`; the object it turns out to be must be its child and of the right type. */
    method OpenRelativeChecked(parent: Pin, name: string, want: Node) returns (child: Option<Pin>)
      requires want != Reparse
      modifies this
      ensures (old(leaked) ==> leaked)
      ensures child.None? ==> leaked || handles == old(handles)
      ensures child.Some? ==>
                && leaked == old(leaked) && child.value.handle !in old(handles)
                && handles == old(handles) + {child.value.handle}
                && |child.value.path| == |parent.path| + 1 && child.value.path[..|parent.path|] == parent.path
                && child.value.path in world && world[child.value.path] == want
      ensures calm && parent.path + [name] in world && world[parent.path + [name]] == want ==> child.Some?
      ensures calm && child.Some? ==> child.value.path == parent.path + [name]
    {
      var h := OpenHandle();
      if h.None? {
        return None;
      }
      var final: Path := *;
      if calm {
        final := parent.path + [name];
      }
      var unidentified := Flaky();
      var moved := Flaky();
      if unidentified || final !in world || world[final] != want || moved
         || |final| != |parent.path| + 1 || final[..|parent.path|] != parent.path {
        var closed := CloseHandle(h.value);
        return None;
      }
      return Some(Pin(final, h.value));
    }

    /** Closes the last pin first; a handle whose close fails stays open and is not forgotten. */
    method CloseChain(chain: seq<Pin>) returns (ok: bool)
      modifies this
      ensures (old(leaked) ==> leaked) && (leaked || handles == old(handles) - HandlesOf(chain))
      ensures ok ==> leaked == old(leaked)
    {
      ok := true;
      var i := |chain|;
      while i > 0
        invariant 0 <= i <= |chain|
        invariant (old(leaked) ==> leaked) && (leaked || handles == old(handles) - HandlesOf(chain[i..]))
        invariant ok ==> leaked == old(leaked)
      {
        i := i - 1;
        var closed := CloseHandle(chain[i].handle);
        ok := ok && closed;
        assert chain[i..] == [chain[i]] + chain[i + 1..];
      }
      assert chain[0..] == chain;
    }

    /**
     Either the whole path is pinned, with exactly one new handle for each directory on it, or nothing is and
     every handle opened on the way was given back, unless a close failed.
    */
    method OpenPinnedChain(root: Path, target: Path, leaf: Node) returns (chain: Option<seq<Pin>>)
      requires leaf != Reparse
      modifies this
      ensures old(leaked) ==> leaked
      ensures chain.None? ==> leaked || handles == old(handles)
      ensures chain.Some? ==>
                && root < target && Pinned(world, chain.value, root, target, leaf)
                && leaked == old(leaked) && HandlesOf(chain.value) !! old(handles)
                && handles == old(handles) + HandlesOf(chain.value)
      ensures calm ==> (chain.Some? <==> root < target && Leads(world, root, target, leaf))
    {
      if !(root < target) {
        return None;
      }
      var h := OpenHandle();
      if h.None? {
        return None;
      }
      var unidentified := Flaky();
      if unidentified {
        var closed := CloseHandle(h.value);
        return None;
      }
      var pins := [Pin(root, h.value)];
      var sensitive := Flaky();
      var i := |root|;
      while i < |target| && !sensitive
        invariant |root| <= i <= |target| && Growing(world, pins, root, target, leaf, i)
        invariant calm ==> pins[|pins| - 1].path == target[..i] && !sensitive
        invariant leaked == old(leaked) && HandlesOf(pins) !! old(handles) && handles == old(handles) + HandlesOf(pins)
        decreases |target| - i, !sensitive
      {
        var cancelled := Flaky();
        var child := None;
        if !cancelled {
          child := OpenRelativeChecked(pins[|pins| - 1], target[i], if i == |target| - 1 then leaf else Directory);
        }
        assert target[..i + 1] == target[..i] + [target[i]] && target[..|target|] == target;
        if child.None? {
          var closed := CloseChain(pins);
          return None;
        }
        Grow(world, pins, root, target, leaf, i, child.value);
        pins := pins + [child.value];
        i := i + 1;
      }
      if sensitive || pins[|pins| - 1].path != target {
        var closed := CloseChain(pins);
        return None;
      }
      Grown(world, pins, root, target, leaf);
      PinnedLeads(world, pins, root, target, leaf);
      return Some(pins);
    }
  }
}
