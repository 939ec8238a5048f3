/**
  Values of the objective tracker (the pydantic models of the agent service)
  and the pure rules over them: the completion check, the quest-state
  recomputation, the in-scene roster, and the specification of marking
  objectives finished by id.
 */
module ObjectiveSpec {
  import opened Wrappers

  datatype QuestState = NotStarted | InProgress | Completed

  /** An objective carries exactly the three declared attributes. */
  datatype Objective = Objective(id: int, objective: string, finished: bool)

  /** What the storyteller supplies when it creates objectives: no id. */
  datatype ObjectiveInput = ObjectiveInput(objective: string, finished: bool)

  datatype Character = Character(name: string, description: string, inScene: bool)

  // ---------------------------------------------------------------------------
  // Completion check

  /** Python's `all(obj.finished for obj in objs)`: true of the empty list. */
  function AllFinished(objs: seq<Objective>): (r: bool)
    ensures r <==> forall i :: 0 <= i < |objs| ==> objs[i].finished
  {
    if objs == [] then true else objs[0].finished && AllFinished(objs[1..])
  }

  /** `check_all_objectives_completed`: an empty list is never completed. */
  function AllObjectivesCompleted(objs: seq<Objective>): (r: bool)
    ensures !r ==> objs == [] || exists i :: 0 <= i < |objs| && !objs[i].finished
    ensures r ==> objs != [] && forall i :: 0 <= i < |objs| ==> objs[i].finished
  {
    if objs == [] then false else AllFinished(objs)
  }

  // ---------------------------------------------------------------------------
  // Quest-state recomputation

  /**
    The recomputation run after marking objectives finished: completed when
    every objective is finished; a not-started quest with objectives moves to
    in progress; a completed quest that is no longer complete re-opens.
   */
  function QuestStateAfterStatusUpdate(state: QuestState, objs: seq<Objective>): (r: QuestState)
    ensures r == Completed <==> AllObjectivesCompleted(objs)
    ensures objs != [] && !r.Completed? ==> r.InProgress?
    ensures objs == [] ==> (r.NotStarted? <==> state.NotStarted?)
  {
    if AllObjectivesCompleted(objs) then Completed
    else if state == NotStarted && objs != [] then InProgress
    else if state == Completed then InProgress
    else state
  }

  /**
    The recomputation run after replacing the whole list: an empty list puts
    the quest back to not started, otherwise as after a status update.
   */
  function QuestStateAfterReplace(state: QuestState, objs: seq<Objective>): (r: QuestState)
    ensures r == Completed <==> AllObjectivesCompleted(objs)
    ensures r == NotStarted <==> objs == []
    ensures r == InProgress <==> objs != [] && !AllObjectivesCompleted(objs)
  {
    if objs == [] then NotStarted else QuestStateAfterStatusUpdate(state, objs)
  }

  /** The invariant every objective tool re-establishes. */
  predicate QuestConsistent(state: QuestState, objs: seq<Objective>)
  {
    state == Completed <==> AllObjectivesCompleted(objs)
  }

  // ---------------------------------------------------------------------------
  // Characters in the scene

  /** `get_characters_in_scene`: the names flagged in scene, in roster order. */
  function InSceneNames(chars: seq<Character>): (r: seq<string>)
    ensures |r| <= |chars|
    ensures forall n :: n in r <==> exists c :: c in chars && c.inScene && c.name == n
  {
    if chars == [] then []
    else (if chars[0].inScene then [chars[0].name] else []) + InSceneNames(chars[1..])
  }

  /** The roster's names that occur in `names`, in roster order. */
  function RosterNamesIn(chars: seq<Character>, names: seq<string>): (r: seq<string>)
    ensures |r| <= |chars|
  {
    if chars == [] then []
    else (if chars[0].name in names then [chars[0].name] else []) + RosterNamesIn(chars[1..], names)
  }

  /** The roster after `update_character_scene_status(names)`. */
  function WithSceneStatus(chars: seq<Character>, names: seq<string>): (r: seq<Character>)
    ensures |r| == |chars|
    ensures forall i :: 0 <= i < |chars| ==>
      r[i].name == chars[i].name && r[i].description == chars[i].description &&
      (r[i].inScene <==> chars[i].name in names)
  {
    seq(|chars|, i requires 0 <= i < |chars| => chars[i].(inScene := chars[i].name in names))
  }

  /** After a scene update the in-scene query returns exactly the roster names listed, in roster order. */
  lemma {:induction false} InSceneAfterUpdate(chars: seq<Character>, names: seq<string>)
    ensures InSceneNames(WithSceneStatus(chars, names)) == RosterNamesIn(chars, names)
  {
    if chars != [] {
      InSceneAfterUpdate(chars[1..], names);
      assert WithSceneStatus(chars, names)[1..] == WithSceneStatus(chars[1..], names);
    }
  }

  // ---------------------------------------------------------------------------
  // Creating objectives

  /** The objectives created from `inputs`, numbered from `firstId` in input order. */
  function Numbered(inputs: seq<ObjectiveInput>, firstId: int): (r: seq<Objective>)
    ensures |r| == |inputs|
    ensures forall i :: 0 <= i < |r| ==>
      r[i].id == firstId + i && ObjectiveInput(r[i].objective, r[i].finished) == inputs[i]
  {
    seq(|inputs|, i requires 0 <= i < |inputs| =>
      Objective(firstId + i, inputs[i].objective, inputs[i].finished))
  }

  predicate UniqueIds(objs: seq<Objective>)
  {
    forall i, j :: 0 <= i < j < |objs| ==> objs[i].id != objs[j].id
  }

  /** Distinct ids stay distinct in any list of the same shape. */
  lemma SameShapeUnique(a: seq<Objective>, b: seq<Objective>)
    requires SameShape(a, b) && UniqueIds(a)
    ensures UniqueIds(b)
  {
  }

  /** Numbered objectives have pairwise distinct ids, all in `[firstId, firstId + |inputs|)`. */
  lemma NumberedIds(inputs: seq<ObjectiveInput>, firstId: int)
    ensures UniqueIds(Numbered(inputs, firstId))
    ensures forall i :: 0 <= i < |inputs| ==>
      firstId <= Numbered(inputs, firstId)[i].id < firstId + |inputs|
  {
  }

  // ---------------------------------------------------------------------------
  // Marking objectives finished by id

  /** The index of the first objective whose id is `id`, scanning from `from`. */
  function FindFrom(objs: seq<Objective>, id: int, from: nat): (r: Option<nat>)
    requires from <= |objs|
    decreases |objs| - from
    ensures r.Some? ==>
      from <= r.value < |objs| && objs[r.value].id == id &&
      forall j :: from <= j < r.value ==> objs[j].id != id
    ensures r.None? ==> forall j :: from <= j < |objs| ==> objs[j].id != id
  {
    if from == |objs| then None
    else if objs[from].id == id then Some(from)
    else FindFrom(objs, id, from + 1)
  }

  /** The index of the first objective with id `id`, if any. */
  function FindById(objs: seq<Objective>, id: int): Option<nat>
  {
    FindFrom(objs, id, 0)
  }

  /** Two lists with the same ids and descriptions, in the same order. */
  predicate SameShape(a: seq<Objective>, b: seq<Objective>)
  {
    |a| == |b| &&
    forall i :: 0 <= i < |a| ==> a[i].id == b[i].id && a[i].objective == b[i].objective
  }

  /** No objective went from finished back to unfinished. */
  predicate NoneReopened(before: seq<Objective>, after: seq<Objective>)
    requires |before| == |after|
  {
    forall i :: 0 <= i < |before| ==> before[i].finished ==> after[i].finished
  }

  /** Marks the first objective with id `id` finished; unknown ids change nothing. */
  function MarkOne(objs: seq<Objective>, id: int): (r: seq<Objective>)
    ensures |r| == |objs|
  {
    match FindById(objs, id)
    case None => objs
    case Some(i) => objs[i := objs[i].(finished := true)]
  }

  /** Marks every listed id finished, in list order. */
  function MarkAll(objs: seq<Objective>, ids: seq<int>): (r: seq<Objective>)
    ensures |r| == |objs|
    decreases |ids|
  {
    if ids == [] then objs else MarkAll(MarkOne(objs, ids[0]), ids[1..])
  }

  /** The listed ids that match no objective, in list order (repeats kept). */
  function UnknownIds(objs: seq<Objective>, ids: seq<int>): (r: seq<int>)
    ensures forall x :: x in r <==> x in ids && forall j :: 0 <= j < |objs| ==> objs[j].id != x
  {
    if ids == [] then []
    else (if FindById(objs, ids[0]).None? then [ids[0]] else []) + UnknownIds(objs, ids[1..])
  }

  /** The number of positions that went from unfinished to finished. */
  function NewlyFinished(before: seq<Objective>, after: seq<Objective>): nat
    requires |before| == |after|
  {
    if before == [] then 0
    else
      var here := if !before[0].finished && after[0].finished then 1 else 0;
      here + NewlyFinished(before[1..], after[1..])
  }

  /** Only ids matter to the search: lists of the same shape answer alike. */
  lemma {:induction false} FindSameShape(a: seq<Objective>, b: seq<Objective>, id: int, from: nat)
    requires SameShape(a, b) && from <= |a|
    decreases |a| - from
    ensures FindFrom(a, id, from) == FindFrom(b, id, from)
  {
    if from < |a| && a[from].id != id {
      FindSameShape(a, b, id, from + 1);
    }
  }

  /** Marking one id keeps ids and descriptions and finishes exactly the first match. */
  lemma MarkOneShape(objs: seq<Objective>, id: int)
    ensures SameShape(objs, MarkOne(objs, id))
    ensures NoneReopened(objs, MarkOne(objs, id))
    ensures forall i :: 0 <= i < |objs| ==>
      (MarkOne(objs, id)[i].finished <==> objs[i].finished || FindById(objs, id) == Some(i))
  {
  }

  /** Marking keeps ids, descriptions and order, and never un-finishes anything. */
  lemma {:induction false} MarkAllShape(objs: seq<Objective>, ids: seq<int>)
    ensures SameShape(objs, MarkAll(objs, ids))
    ensures NoneReopened(objs, MarkAll(objs, ids))
    decreases |ids|
  {
    if ids != [] {
      var next := MarkOne(objs, ids[0]);
      MarkOneShape(objs, ids[0]);
      MarkAllShape(next, ids[1..]);
    }
  }

  /** Marking the ids one at a time: the list after `ids + [x]`. */
  lemma {:induction false} MarkAllSnoc(objs: seq<Objective>, ids: seq<int>, x: int)
    ensures MarkAll(objs, ids + [x]) == MarkOne(MarkAll(objs, ids), x)
    decreases |ids|
  {
    if ids == [] {
      assert ids + [x] == [x];
    } else {
      assert (ids + [x])[1..] == ids[1..] + [x];
      MarkAllSnoc(MarkOne(objs, ids[0]), ids[1..], x);
    }
  }

  lemma {:induction false} UnknownIdsSnoc(objs: seq<Objective>, ids: seq<int>, x: int)
    ensures UnknownIds(objs, ids + [x]) ==
      UnknownIds(objs, ids) + (if FindById(objs, x).None? then [x] else [])
    decreases |ids|
  {
    var tail := if FindById(objs, x).None? then [x] else [];
    if ids == [] {
      assert ids + [x] == [x];
      assert UnknownIds(objs, [x]) == tail + UnknownIds(objs, []);
    } else {
      var head := if FindById(objs, ids[0]).None? then [ids[0]] else [];
      assert (ids + [x])[0] == ids[0];
      assert (ids + [x])[1..] == ids[1..] + [x];
      UnknownIdsSnoc(objs, ids[1..], x);
      calc {
        UnknownIds(objs, ids + [x]);
        head + UnknownIds(objs, ids[1..] + [x]);
        head + (UnknownIds(objs, ids[1..]) + tail);
        { assert head + (UnknownIds(objs, ids[1..]) + tail) == (head + UnknownIds(objs, ids[1..])) + tail; }
        UnknownIds(objs, ids) + tail;
      }
    }
  }

  /** Finishing one more position adds one to the count exactly when it was unfinished. */
  lemma {:induction false} NewlyFinishedSet(before: seq<Objective>, after: seq<Objective>, i: nat)
    requires |before| == |after| && i < |after|
    requires NoneReopened(before, after)
    ensures NewlyFinished(before, after[i := after[i].(finished := true)]) ==
      NewlyFinished(before, after) + (if after[i].finished then 0 else 1)
    decreases |before|
  {
    var after' := after[i := after[i].(finished := true)];
    if i > 0 {
      assert after'[1..] == after[1..][i - 1 := after[1..][i - 1].(finished := true)];
      NewlyFinishedSet(before[1..], after[1..], i - 1);
    } else {
      assert after'[1..] == after[1..];
    }
  }

  /** The count of newly finished objectives is zero when nothing changed. */
  lemma {:induction false} NewlyFinishedSame(objs: seq<Objective>)
    ensures NewlyFinished(objs, objs) == 0
  {
    if objs != [] {
      NewlyFinishedSame(objs[1..]);
    }
  }

  lemma UniqueFind(objs: seq<Objective>, i: nat)
    requires UniqueIds(objs) && i < |objs|
    ensures FindById(objs, objs[i].id) == Some(i)
  {
  }

  /**
    With distinct ids, marking finishes exactly the listed objectives: an
    objective ends finished iff it was finished or its id is listed.
   */
  lemma {:induction false} MarkAllUnique(objs: seq<Objective>, ids: seq<int>)
    requires UniqueIds(objs)
    ensures |MarkAll(objs, ids)| == |objs|
    ensures forall i :: 0 <= i < |objs| ==>
      (MarkAll(objs, ids)[i].finished <==> objs[i].finished || objs[i].id in ids)
    decreases |ids|
  {
    if ids != [] {
      var next := MarkOne(objs, ids[0]);
      MarkOneShape(objs, ids[0]);
      assert UniqueIds(next);
      MarkAllUnique(next, ids[1..]);
      forall i | 0 <= i < |objs|
        ensures next[i].finished <==> objs[i].finished || objs[i].id == ids[0]
      {
        if objs[i].id == ids[0] {
          UniqueFind(objs, i);
        }
      }
    }
  }
}
