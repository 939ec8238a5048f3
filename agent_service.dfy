/**
  The game context the storyteller's tools mutate, and the tools themselves.
  Each tool updates the context in place and then recomputes the quest state.
  A tool's text reply is modelled by an outcome datatype.
 */
module AgentService {
  import opened Wrappers
  import opened ObjectiveSpec

  /** Reply of `create_game_objectives_tool`. */
  datatype CreateOutcome =
    | AlreadyInitialized
    | NothingProvided
    | Created(firstId: int, nextId: int)

  /** Reply of `update_objective_status_tool`. */
  datatype StatusOutcome =
    | NotInitialized
    | NoObjectives
    | Updated(updatedCount: nat, notFound: seq<int>)

  class GameContext {
    var questState: QuestState
    var objectives: seq<Objective>
    var objectivesInitialized: bool
    var nextObjectiveId: int
    var characters: seq<Character>
    var currentTurn: int
    var theme: Option<string>
    var environment: Option<string>
    var entities: seq<string>

    /** A fresh context: no objectives, ids start at 1, an empty roster. */
    constructor ()
      ensures questState == NotStarted && objectives == [] && !objectivesInitialized
      ensures nextObjectiveId == 1 && characters == [] && currentTurn == 0
      ensures theme == None && environment == None && entities == []
    {
      questState := NotStarted;
      objectives := [];
      objectivesInitialized := false;
      nextObjectiveId := 1;
      characters := [];
      currentTurn := 0;
      theme := None;
      environment := None;
      entities := [];
    }

    /** Adds a character at the end of the roster. */
    method AddCharacter(c: Character)
      modifies this`characters
      ensures characters == old(characters) + [c]
    {
      characters := characters + [c];
    }

    /** `get_characters_in_scene`. */
    function CharactersInScene(): (r: seq<string>)
      reads this
      ensures forall n :: n in r <==> exists c :: c in characters && c.inScene && c.name == n
    {
      InSceneNames(characters)
    }

    /** `check_all_objectives_completed`. */
    function CheckAllObjectivesCompleted(): (r: bool)
      reads this
      ensures r <==> objectives != [] && forall i :: 0 <= i < |objectives| ==> objectives[i].finished
    {
      AllObjectivesCompleted(objectives)
    }

    /**
      `update_character_scene_status`: every character's in-scene flag becomes
      whether its name is listed; names, descriptions and the order stay.
     */
    method UpdateCharacterSceneStatus(names: seq<string>)
      modifies this`characters
      ensures characters == WithSceneStatus(old(characters), names)
      ensures CharactersInScene() == RosterNamesIn(old(characters), names)
    {
      ghost var roster := characters;
      var i := 0;
      while i < |characters|
        invariant 0 <= i <= |characters| == |roster|
        invariant forall k :: 0 <= k < i ==>
          characters[k] == roster[k].(inScene := roster[k].name in names)
        invariant forall k :: i <= k < |roster| ==> characters[k] == roster[k]
      {
        characters := characters[i := characters[i].(inScene := characters[i].name in names)];
        i := i + 1;
      }
      assert characters == WithSceneStatus(roster, names);
      InSceneAfterUpdate(roster, names);
    }

    /**
      `update_objective_status`: an index outside the list changes nothing,
      otherwise only that objective's flag is set. The quest state is not
      recomputed here.
     */
    method UpdateObjectiveStatus(index: int, finished: bool)
      modifies this`objectives
      ensures !(0 <= index < |old(objectives)|) ==> objectives == old(objectives)
      ensures 0 <= index < |old(objectives)| ==>
        objectives == old(objectives)[index := old(objectives)[index].(finished := finished)]
    {
      if 0 <= index < |objectives| {
        objectives := objectives[index := objectives[index].(finished := finished)];
      }
    }

    /**
      `update_game_objectives_tool`: replaces the whole list. The quest is not
      started exactly when the list is empty, and completed exactly when it is
      non-empty and all finished.
     */
    method UpdateGameObjectivesTool(objs: seq<Objective>)
      modifies this`objectives, this`questState
      ensures objectives == objs
      ensures questState == QuestStateAfterReplace(old(questState), objs)
      ensures QuestConsistent(questState, objectives)
      ensures questState.NotStarted? <==> objectives == []
    {
      objectives := objs;
      if objs == [] {
        questState := NotStarted;
      } else if CheckAllObjectivesCompleted() {
        questState := Completed;
      } else if questState == NotStarted && objs != [] {
        questState := InProgress;
      } else if questState == Completed && !CheckAllObjectivesCompleted() {
        questState := InProgress;
      }
    }

    /**
      `create_game_objectives_tool`: a one-time initialisation. Once
      initialised, or given no objectives, it changes nothing. Otherwise it
      numbers the inputs from the old next id in input order, advances the
      counter by their number, and marks the list initialised.
     */
    method CreateGameObjectivesTool(inputs: seq<ObjectiveInput>) returns (outcome: CreateOutcome)
      modifies this`objectives, this`questState, this`objectivesInitialized, this`nextObjectiveId
      ensures old(objectivesInitialized) ==> outcome == AlreadyInitialized
      ensures !old(objectivesInitialized) && inputs == [] ==> outcome == NothingProvided
      ensures outcome.Created? <==> !old(objectivesInitialized) && inputs != []
      ensures !outcome.Created? ==>
        objectives == old(objectives) && questState == old(questState) &&
        objectivesInitialized == old(objectivesInitialized) && nextObjectiveId == old(nextObjectiveId)
      ensures outcome.Created? ==>
        !old(objectivesInitialized) && inputs != [] &&
        outcome == Created(old(nextObjectiveId), nextObjectiveId) &&
        objectives == Numbered(inputs, old(nextObjectiveId)) &&
        nextObjectiveId == old(nextObjectiveId) + |inputs| &&
        objectivesInitialized &&
        questState == (if AllObjectivesCompleted(objectives) then Completed else InProgress) &&
        QuestConsistent(questState, objectives) && UniqueIds(objectives)
    {
      if objectivesInitialized {
        return AlreadyInitialized;
      }
      if inputs == [] {
        return NothingProvided;
      }
      var firstId := nextObjectiveId;
      var created: seq<Objective> := [];
      for k := 0 to |inputs|
        invariant nextObjectiveId == firstId + k
        invariant created == Numbered(inputs[..k], firstId)
      {
        var newId := nextObjectiveId;
        created := created + [Objective(newId, inputs[k].objective, inputs[k].finished)];
        nextObjectiveId := nextObjectiveId + 1;
      }
      assert inputs[..|inputs|] == inputs;
      objectives := created;
      objectivesInitialized := true;
      if CheckAllObjectivesCompleted() {
        questState := Completed;
      } else {
        questState := InProgress;
      }
      NumberedIds(inputs, firstId);
      outcome := Created(firstId, nextObjectiveId);
    }

    /** The scan of `update_objective_status_tool` for the first objective carrying `id`. */
    method FindObjectiveIndex(id: int) returns (r: Option<nat>)
      ensures r == FindById(objectives, id)
      ensures r.Some? ==> r.value < |objectives| && objectives[r.value].id == id
    {
      var j := 0;
      while j < |objectives|
        invariant 0 <= j <= |objectives|
        invariant forall m :: 0 <= m < j ==> objectives[m].id != id
      {
        if objectives[j].id == id {
          FindFirst(objectives, id, j);
          return Some(j);
        }
        j := j + 1;
      }
      return None;
    }

    /**
      `update_objective_status_tool`: nothing changes unless the objectives are
      initialised and non-empty. Otherwise each listed id marks the first
      objective with that id finished; the count is the number of objectives
      that went from unfinished to finished; unknown ids are reported.
     */
    method UpdateObjectiveStatusTool(ids: seq<int>) returns (outcome: StatusOutcome)
      modifies this`objectives, this`questState
      ensures !old(objectivesInitialized) ==> outcome == NotInitialized
      ensures old(objectivesInitialized) && old(objectives) == [] ==> outcome == NoObjectives
      ensures outcome.Updated? <==> old(objectivesInitialized) && old(objectives) != []
      ensures !outcome.Updated? ==>
        objectives == old(objectives) && questState == old(questState)
      ensures outcome.Updated? ==>
        objectivesInitialized && old(objectives) != [] &&
        objectives == MarkAll(old(objectives), ids) &&
        SameShape(old(objectives), objectives) && NoneReopened(old(objectives), objectives) &&
        outcome.updatedCount == NewlyFinished(old(objectives), objectives) &&
        outcome.notFound == UnknownIds(old(objectives), ids) &&
        questState == QuestStateAfterStatusUpdate(old(questState), objectives) &&
        QuestConsistent(questState, objectives)
    {
      if !objectivesInitialized {
        return NotInitialized;
      }
      if objectives == [] {
        return NoObjectives;
      }
      ghost var before := objectives;
      var updatedCount: nat := 0;
      var notFound: seq<int> := [];
      NewlyFinishedSame(before);
      for k := 0 to |ids|
        invariant objectives == MarkAll(before, ids[..k])
        invariant |objectives| == |before|
        invariant SameShape(before, objectives) && NoneReopened(before, objectives)
        invariant updatedCount == NewlyFinished(before, objectives)
        invariant notFound == UnknownIds(before, ids[..k])
      {
        var id := ids[k];
        FindSameShape(before, objectives, id, 0);
        var at := FindObjectiveIndex(id);
        var found := at.Some?;
        if found && !objectives[at.value].finished {
          NewlyFinishedSet(before, objectives, at.value);
          objectives := objectives[at.value := objectives[at.value].(finished := true)];
          updatedCount := updatedCount + 1;
        }
        MarkAllSnoc(before, ids[..k], id);
        UnknownIdsSnoc(before, ids[..k], id);
        assert ids[..k + 1] == ids[..k] + [id];
        MarkAllShape(before, ids[..k + 1]);
        if !found {
          notFound := notFound + [id];
        }
      }
      assert ids[..|ids|] == ids;
      if CheckAllObjectivesCompleted() {
        questState := Completed;
      } else if questState == NotStarted && objectives != [] {
        questState := InProgress;
      } else if questState == Completed && !CheckAllObjectivesCompleted() {
        questState := InProgress;
      }
      outcome := Updated(updatedCount, notFound);
    }

    /**
      `get_objectives_tool`: no side effects; the empty list while the
      objectives are uninitialised or empty, the current list otherwise.
     */
    method GetObjectivesTool() returns (r: seq<Objective>)
      ensures !objectivesInitialized ==> r == []
      ensures objectivesInitialized ==> r == objectives
    {
      if !objectivesInitialized {
        return [];
      }
      if objectives == [] {
        return [];
      }
      return objectives;
    }
  }

  /** The first match found by a scan that saw no match before `j`. */
  lemma FindFirst(objs: seq<Objective>, id: int, j: nat)
    requires j < |objs| && objs[j].id == id
    requires forall m :: 0 <= m < j ==> objs[m].id != id
    ensures FindFrom(objs, id, 0) == Some(j)
  {
  }
}
