/** The scene dispatcher: a table of 256 scene functions indexed by a
    one-byte scene ID, a default function for IDs with no entry, and the
    current and next scene IDs. Each frame the next ID becomes the current
    one and its function runs. */
module Scene {
  import opened Ints
  import opened Wrappers

  /** A scene function, identified by its address; `Option<SceneFunc>`
      is a pointer that may be NULL. The call itself is not part of this
      model: an update returns the function it would call. */
  datatype SceneFunc = SceneFunc(address: nat)

  /** `T2K_Scene`: one entry of the array given to `t2kAddScenes`. */
  datatype SceneEntry = SceneEntry(sceneID: int, sceneFunc: Option<SceneFunc>)

  const NumOfScenes := 256

  /** A scene array `t2kAddScenes` can walk: an entry with a NULL
      function ends it. */
  predicate Terminated(s: seq<SceneEntry>, i: int)
  {
    exists k :: 0 <= i <= k < |s| && s[k].sceneFunc.None?
  }

  /** The table after a store, and whether the store completed. */
  datatype Stored = Stored(table: seq<Option<SceneFunc>>, ok: bool)

  /** The loop of `t2kAddScenes` from entry i: each entry's function into
      its ID's slot, up to the first NULL function; false at the first ID
      outside [0, 255], with the entries before it stored. */
  function StoreScenes(table: seq<Option<SceneFunc>>, s: seq<SceneEntry>, i: nat): (r: Stored)
    requires |table| == NumOfScenes && Terminated(s, i)
    ensures |r.table| == NumOfScenes
    decreases |s| - i
  {
    if s[i].sceneFunc.None? then Stored(table, true)
    else if s[i].sceneID < 0 || 255 < s[i].sceneID then Stored(table, false)
    else StoreScenes(table[s[i].sceneID := s[i].sceneFunc], s, i + 1)
  }

  /** The end of a terminated array: the index of its first NULL
      function. */
  function EndOf(s: seq<SceneEntry>, i: nat): (n: nat)
    requires Terminated(s, i)
    ensures i <= n < |s| && s[n].sceneFunc.None?
    ensures forall k :: i <= k < n ==> s[k].sceneFunc.Some?
    decreases |s| - i
  {
    if s[i].sceneFunc.None? then i else EndOf(s, i + 1)
  }

  /** The last of entries [i, n) with ID id, if any. */
  function LastFor(s: seq<SceneEntry>, i: int, n: int, id: int): (r: Option<nat>)
    requires 0 <= i && n <= |s|
    ensures r.Some? ==> i <= r.value < n && s[r.value].sceneID == id
    ensures r.None? ==> forall k :: i <= k < n ==> s[k].sceneID != id
    decreases n - i
  {
    if n <= i then None
    else if s[n - 1].sceneID == id then Some(n - 1)
    else LastFor(s, i, n - 1, id)
  }

  /** Dropping the first entry of the range changes the last one with an
      ID only if the first entry was that last one. */
  lemma {:induction false} LastForFront(s: seq<SceneEntry>, i: int, n: int, id: int)
    requires 0 <= i < n <= |s|
    ensures LastFor(s, i, n, id) ==
      if LastFor(s, i + 1, n, id).Some? then LastFor(s, i + 1, n, id)
      else if s[i].sceneID == id then Some(i) else None
    decreases n - i
  {
    if n - 1 > i && s[n - 1].sceneID != id {
      LastForFront(s, i, n - 1, id);
    }
  }

  /** `t2kAddScenes` completes exactly when every ID before the end is in
      [0, 255]; then each slot holds the function of the last entry with
      its ID, and a slot no entry names keeps its function. */
  lemma {:induction false} StoreScenesMeaning(table: seq<Option<SceneFunc>>, s: seq<SceneEntry>, i: nat, id: int)
    requires |table| == NumOfScenes && Terminated(s, i) && 0 <= id < NumOfScenes
    ensures StoreScenes(table, s, i).ok <==> forall k :: i <= k < EndOf(s, i) ==> 0 <= s[k].sceneID <= 255
    ensures StoreScenes(table, s, i).ok ==> (StoreScenes(table, s, i).table[id] ==
      match LastFor(s, i, EndOf(s, i), id)
      case Some(k) => s[k].sceneFunc
      case None => table[id])
    decreases |s| - i
  {
    if s[i].sceneFunc.Some? && 0 <= s[i].sceneID <= 255 {
      assert Terminated(s, i + 1);
      var n := EndOf(s, i);
      assert EndOf(s, i + 1) == n;
      StoreScenesMeaning(table[s[i].sceneID := s[i].sceneFunc], s, i + 1, id);
      LastForFront(s, i, n, id);
    }
  }

  /** The end mark the code uses and the one its header describes: an
      entry with a NULL function ends the array whatever its ID, while an
      ID of -1 with a function is rejected rather than taken as the end. */
  lemma EndMarks(table: seq<Option<SceneFunc>>, f: SceneFunc, plain: seq<SceneEntry>, headed: seq<SceneEntry>)
    requires |table| == NumOfScenes
    requires plain == [SceneEntry(-1, None)] && headed == [SceneEntry(-1, Some(f)), SceneEntry(-1, None)]
    ensures Terminated(plain, 0) && Terminated(headed, 0)
    ensures StoreScenes(table, plain, 0) == Stored(table, true)
    ensures StoreScenes(table, headed, 0) == Stored(table, false)
  {
    assert plain[0].sceneFunc.None? && headed[1].sceneFunc.None?;
  }

  /** What `t2kSceneUpdate` calls for a scene ID: the table's entry, else
      the default, else nothing. */
  function Dispatch(table: seq<Option<SceneFunc>>, defaultFunc: Option<SceneFunc>, id: uint8): (f: Option<SceneFunc>)
    requires |table| == NumOfScenes
    ensures table[id].Some? ==> f == table[id]
    ensures table[id].None? ==> f == defaultFunc
  {
    if table[id].None? then defaultFunc else table[id]
  }

  /** The globals of `t2kScene.cpp`. */
  class SceneSystem {
    const sceneFunc: array<Option<SceneFunc>>
    var defaultFunc: Option<SceneFunc>
    var currentSceneID: uint8
    var nextSceneID: uint8

    predicate Valid()
    {
      sceneFunc.Length == NumOfScenes
    }

    /** The globals' initial values: no scenes, no default, IDs 0. */
    constructor ()
      ensures Valid() && fresh(sceneFunc)
      ensures sceneFunc[..] == seq(NumOfScenes, _ => None) && defaultFunc.None?
      ensures currentSceneID == 0 && nextSceneID == 0
    {
      sceneFunc := new Option<SceneFunc>[256] (_ => None);
      defaultFunc := None;
      currentSceneID, nextSceneID := 0, 0;
    }

    /** `t2kSceneInit`: clears every entry; without a default it fails
        there, else the next scene is 0 and the default is set. */
    method SceneInit(inDefault: Option<SceneFunc>) returns (ok: bool)
      requires Valid()
      modifies this, sceneFunc
      ensures Valid()
      ensures sceneFunc[..] == seq(NumOfScenes, _ => None)
      ensures ok == inDefault.Some?
      ensures !ok ==> nextSceneID == old(nextSceneID) && defaultFunc == old(defaultFunc)
      ensures ok ==> nextSceneID == 0 && defaultFunc == inDefault
      ensures currentSceneID == old(currentSceneID)
    {
      for i := 0 to 256
        modifies sceneFunc
        invariant forall k :: 0 <= k < i ==> sceneFunc[k].None?
      {
        sceneFunc[i] := None;
      }
      assert sceneFunc[..] == seq(NumOfScenes, _ => None);
      if inDefault.None? {
        return false;
      }
      nextSceneID := 0;
      defaultFunc := inDefault;
      ok := true;
    }

    /** `t2kSceneUpdate`: the next scene becomes the current one, and the
        function it dispatches to is returned. */
    method SceneUpdate() returns (invoked: Option<SceneFunc>)
      requires Valid()
      modifies this
      ensures currentSceneID == old(nextSceneID) && nextSceneID == old(nextSceneID)
      ensures defaultFunc == old(defaultFunc)
      ensures invoked == Dispatch(sceneFunc[..], defaultFunc, currentSceneID)
    {
      currentSceneID := nextSceneID;
      var func := sceneFunc[currentSceneID];
      if func.None? {
        invoked := defaultFunc;
      } else {
        invoked := func;
      }
    }

    /** `t2kAddScene`: one entry, overwritten. */
    method AddScene(inSceneID: uint8, inSceneFunc: Option<SceneFunc>)
      requires Valid()
      modifies sceneFunc
      ensures sceneFunc[..] == old(sceneFunc[..])[inSceneID := inSceneFunc]
    {
      sceneFunc[inSceneID] := inSceneFunc;
    }

    /** `t2kAddScenes`: false for a NULL array; else the entries up to the
        first NULL function, false at the first ID outside [0, 255]. */
    method AddScenes(inSceneInfoArray: Option<seq<SceneEntry>>) returns (ok: bool)
      requires Valid()
      requires inSceneInfoArray.Some? ==> Terminated(inSceneInfoArray.value, 0)
      modifies sceneFunc
      ensures inSceneInfoArray.None? ==> !ok && sceneFunc[..] == old(sceneFunc[..])
      ensures inSceneInfoArray.Some? ==>
        Stored(sceneFunc[..], ok) == StoreScenes(old(sceneFunc[..]), inSceneInfoArray.value, 0)
    {
      if inSceneInfoArray.None? {
        return false;
      }
      var s := inSceneInfoArray.value;
      ghost var total := StoreScenes(sceneFunc[..], s, 0);
      var i := 0;
      while s[i].sceneFunc.Some?
        invariant Terminated(s, i)
        invariant StoreScenes(sceneFunc[..], s, i) == total
        decreases |s| - i
      {
        var id := s[i].sceneID;
        if id < 0 || 255 < id {
          return false;
        }
        sceneFunc[id] := s[i].sceneFunc;
        i := i + 1;
      }
      ok := true;
    }

    /** `t2kSetDefaultSceneFunc`. */
    method SetDefaultSceneFunc(inSceneFunc: Option<SceneFunc>)
      modifies this
      ensures defaultFunc == inSceneFunc
      ensures currentSceneID == old(currentSceneID) && nextSceneID == old(nextSceneID)
    {
      defaultFunc := inSceneFunc;
    }

    /** `t2kGetCurrentSceneID`. */
    method GetCurrentSceneID() returns (id: uint8)
      ensures id == currentSceneID
    {
      id := currentSceneID;
    }

    /** `t2kSetNextSceneID`: the current scene stays until the next
        update. */
    method SetNextSceneID(inNextSceneID: uint8)
      modifies this
      ensures nextSceneID == inNextSceneID
      ensures currentSceneID == old(currentSceneID) && defaultFunc == old(defaultFunc)
    {
      nextSceneID := inNextSceneID;
    }
  }
}
