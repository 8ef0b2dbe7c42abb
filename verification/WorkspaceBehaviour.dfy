/** What users see of the store across several calls. */
module WorkspaceBehaviour {
  import opened Common
  import opened Workspaces
  import opened WorkspaceInvariant
  import opened StoreOperations
  import Jobs

  lemma FoundIs(ids: seq<nat>, runs: map<nat, Run>, id: nat, r: nat)
    requires r in ids && r in runs && runs[r].request.id == id
    requires forall q :: q in ids && q in runs && q != r ==> runs[q].request.id != id
    ensures FindRequest(ids, runs, id) == Some(r)
  {
    SameRequestSameRun(ids, runs, id);
  }

  /**
   * Registering the same request again, with whatever else has changed in the call, returns the same run and changes
   * nothing; another request under its id is a conflict.
   */
  lemma RegisterAgain(cfg: Settings, s: Store, w: nat, request: Request, scenarios: seq<Scenario>, taskSet: TaskSet,
                      now: real, inputFits: bool, again: Request, scenarios': seq<Scenario>, taskSet': TaskSet,
                      later: real, fits': bool)
    requires StoreInv(cfg, s) && DistinctScenarios(scenarios) && again.id == request.id
    requires w in s.workspaces ==> HasTaskSet(s.workspaces[w], taskSet.id)
    requires Register(cfg, s, w, request, scenarios, taskSet, now, inputFits).1.Ok?
    ensures var (s', reply) := Register(cfg, s, w, request, scenarios, taskSet, now, inputFits);
            Register(cfg, s', w, again, scenarios', taskSet', later, fits')
            == (s', if again == request then Ok(Registered(reply.value.run, false)) else Err(SUBMISSION_CONFLICT))
  {
    hide StoreInv, Admit, Refusal, LeavesRunsAlone, Announces;
    RegisterInv(cfg, s, w, request, scenarios, taskSet, now, inputFits);
    var (s', reply) := Register(cfg, s, w, request, scenarios, taskSet, now, inputFits);
    SameRequestSameRun(s.workspaces[w].runs, s.runs, request.id);
    var previous := FindRequest(s.workspaces[w].runs, s.runs, request.id);
    if previous.None? || previous.value !in s.runs {
      AdmitCreates(cfg, s, w, request, scenarios, taskSet, now, inputFits);
      AnnouncedId(s, s', reply);
      FoundIs(s'.workspaces[w].runs, s'.runs, request.id, s.nextRun);
    }
  }

  lemma AdmitCreates(cfg: Settings, s: Store, w: nat, request: Request, scenarios: seq<Scenario>, taskSet: TaskSet,
                     now: real, inputFits: bool)
    requires w in s.workspaces
    ensures Admit(cfg, s, w, request, scenarios, taskSet, now, inputFits).1.Ok? ==>
              Admit(cfg, s, w, request, scenarios, taskSet, now, inputFits).1.value.created
  {
    hide PruneHistory, RoomFor, NewRun, Missing, AddRun;
  }

  lemma AnnouncedId(s: Store, s': Store, reply: Result<Registered, AppError>)
    requires Announces(s, s', reply) && reply.Ok? && reply.value.created
    ensures reply.value.run == s.nextRun
  {
  }

  /** Of two edits made from the same revision only the first succeeds. */
  lemma SecondEditConflicts(cfg: Settings, s: Store, w: nat, revision: nat, valid: bool, made: TaskSet, fits: bool,
                            valid': bool, made': TaskSet, fits': bool, id: nat)
    requires SaveEditor(cfg, s, w, revision, valid, made, fits).1.Ok?
    ensures var s' := SaveEditor(cfg, s, w, revision, valid, made, fits).0;
            && SaveEditor(cfg, s', w, revision, valid', made', fits') == (s', Err(REVISION_CONFLICT))
            && DeleteTaskSet(s', w, id, revision) == (s', Err(REVISION_CONFLICT))
  {
  }

  /** Saving the same specification again reuses its task set and keeps baseline and latest. */
  lemma SameSpecSameTasks(cfg: Settings, s: Store, w: nat, revision: nat, made: TaskSet, made': TaskSet)
    requires SaveEditor(cfg, s, w, revision, true, made, true).1.Ok? && made'.spec == made.spec
    requires w in s.workspaces && !HasTaskSet(s.workspaces[w], made.id)
    ensures var (s', id) := SaveEditor(cfg, s, w, revision, true, made, true);
            var (s'', id') := SaveEditor(cfg, s', w, revision + 1, true, made', true);
            && id' == id && w in s'.workspaces && w in s''.workspaces
            && s''.workspaces[w].taskSets == s'.workspaces[w].taskSets
            && s''.workspaces[w].baseline == s'.workspaces[w].baseline
            && s''.workspaces[w].latest == s'.workspaces[w].latest
  {
    var ws := s.workspaces[w];
    FindSpecFinds(ws.taskSets, made.spec);
    if FindSpec(ws.taskSets, made.spec).None? {
      FindAppended(ws.taskSets, made);
      assert (ws.taskSets + [made])[|ws.taskSets|].id == made.id;
    } else {
      HasTaskSetMember(ws, FindSpec(ws.taskSets, made.spec).value);
    }
  }

  lemma {:induction false} FindAppended(ts: seq<TaskSet>, made: TaskSet)
    requires FindSpec(ts, made.spec).None?
    ensures FindSpec(ts + [made], made.spec) == Some(made)
  {
    if ts == [] {
      assert ts + [made] == [made];
    } else {
      assert (ts + [made])[1..] == ts[1..] + [made];
      FindAppended(ts[1..], made);
    }
  }
}
