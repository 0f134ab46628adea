/**
 Run lifecycles (src/founderos_runtime/runs.py): attempts, retries, and the cascade
 from an agent run that failed for the last time to its workflow run.
 */
module RuntimeRuns {
  import opened Basics
  import opened ProjectRuntime
  import opened RuntimeEvents

  // ------------------------------------------------------------ run lifecycles

  ghost predicate WorkflowRunOk(s: Store, w: Id)
    requires w in s.workflowRuns
  {
    s.workflowRuns[w].id == w && WorkflowResolves(s, s.workflowRuns[w].workflow)
  }

  function MaxAttempts(s: Store, a: AgentRun): int
    requires a.workflowRun.id in s.workflowRuns && s.workflowRuns[a.workflowRun.id].workflow.id in s.workflows
  {
    s.workflows[s.workflowRuns[a.workflowRun.id].workflow.id].maxAttempts
  }

  /** An agent run sits in a workflow run of its project that has been started.  Its
      reference may name a revision of that run. */
  ghost predicate AgentRunLinked(s: Store, a: AgentRun) {
    && a.workflowRun.version.None?
    && a.workflowRun.id in s.workflowRuns
    && WorkflowRunOk(s, a.workflowRun.id)
    && s.workflowRuns[a.workflowRun.id].project == a.project
    && s.workflowRuns[a.workflowRun.id].status != Queued
  }

  /** The run has no attempt left and its workflow run is still open. */
  ghost predicate Owed(s: Store, a: AgentRun)
    requires AgentRunLinked(s, a)
  {
    a.attempt >= MaxAttempts(s, a) && !Terminal(s.workflowRuns[a.workflowRun.id].status)
  }

  /** The last failure of a run has ended its workflow run; `bounded` asks for its
      attempt to be one its workflow allows as well. */
  ghost predicate AgentRunOk(s: Store, a: AgentRun, bounded: bool) {
    && AgentRunLinked(s, a)
    && (a.status == Failed ==> !Owed(s, a))
    && (bounded ==> 1 <= a.attempt <= MaxAttempts(s, a))
  }

  ghost predicate RunsOk(s: Store, bounded: bool) {
    && (bounded ==> forall w :: w in s.workflows ==> s.workflows[w].maxAttempts >= 1)
    && (forall w :: w in s.workflowRuns ==> WorkflowRunOk(s, w))
    && (forall a :: a in s.agentRuns ==> AgentRunOk(s, s.agentRuns[a], bounded))
  }

  lemma SameRuns(s: Store, s': Store, bounded: bool)
    requires RunsOk(s, bounded)
    requires s'.workflowRuns == s.workflowRuns && s'.agentRuns == s.agentRuns && s'.workflows == s.workflows
    ensures RunsOk(s', bounded)
  {
    forall w | w in s'.workflowRuns ensures WorkflowRunOk(s', w) { assert WorkflowRunOk(s, w); }
    forall a | a in s'.agentRuns ensures AgentRunOk(s', s'.agentRuns[a], bounded) {
      assert AgentRunOk(s, s.agentRuns[a], bounded);
    }
  }

  /** A workflow run never goes back to the queue, and never leaves a terminal status. */
  lemma WorkflowMoves(from: RunStatus, to: RunStatus)
    requires WorkflowAllowed(from, to)
    ensures to != Queued && !Terminal(from)
  {
  }

  lemma WorkflowStatusKeepsRuns(s: Store, w: Id, status: RunStatus, s': Store, bounded: bool)
    requires RunsOk(s, bounded) && w in s.workflowRuns && WorkflowAllowed(s.workflowRuns[w].status, status)
    requires s'.workflows == s.workflows && s'.agentRuns == s.agentRuns
    requires var run := s.workflowRuns[w];
             s'.workflowRuns == s.workflowRuns[w := run.(status := status, revision := run.revision + 1)]
    ensures RunsOk(s', bounded)
  {
    WorkflowMoves(s.workflowRuns[w].status, status);
    forall v | v in s'.workflowRuns ensures WorkflowRunOk(s', v) { assert WorkflowRunOk(s, v); }
    forall a | a in s'.agentRuns ensures AgentRunOk(s', s'.agentRuns[a], bounded) {
      assert AgentRunOk(s, s.agentRuns[a], bounded);
    }
  }

  /** Everything about runs but what the failure of `a` still owes. */
  ghost predicate RunsOkBut(s: Store, a: Id, bounded: bool) {
    && a in s.agentRuns
    && (bounded ==> forall w :: w in s.workflows ==> s.workflows[w].maxAttempts >= 1)
    && (forall w :: w in s.workflowRuns ==> WorkflowRunOk(s, w))
    && (forall b :: b in s.agentRuns && b != a ==> AgentRunOk(s, s.agentRuns[b], bounded))
    && AgentRunLinked(s, s.agentRuns[a])
    && (bounded ==> 1 <= s.agentRuns[a].attempt <= MaxAttempts(s, s.agentRuns[a]))
  }

  lemma AgentStatusCommitted(s: Store, id: Id, status: RunStatus, retryable: bool, event: Id, bounded: bool)
    requires RunsOk(s, bounded) && id in s.agentRuns
    ensures RunsOkBut(WithAgentStatus(s, id, status, retryable, event), id, bounded)
    ensures status != Failed ==> RunsOk(WithAgentStatus(s, id, status, retryable, event), bounded)
  {
    hide Announcing;
    var s' := WithAgentStatus(s, id, status, retryable, event);
    AnnouncingKeeps(s, status, event, s.agentRuns[id].project, id);
    assert AgentRunOk(s, s.agentRuns[id], bounded);
    forall w | w in s'.workflowRuns ensures WorkflowRunOk(s', w) { assert WorkflowRunOk(s, w); }
    forall b | b in s'.agentRuns && b != id ensures AgentRunOk(s', s'.agentRuns[b], bounded) {
      assert AgentRunOk(s, s.agentRuns[b], bounded);
    }
    assert AgentRunLinked(s', s'.agentRuns[id]);
  }

  lemma AgentStatusKeepsRuns(s: Store, id: Id, status: RunStatus, expected: int, details: Option<bool>,
                             event: Id, valid: bool, bounded: bool)
    requires RunsOk(s, bounded)
    ensures var o := SetAgentStatusOnly(s, id, status, expected, details, event, valid);
            && (o.result.Failure? ==> o.store == s)
            && (o.result.Success? ==>
                  && RunsOkBut(o.store, id, bounded)
                  && o.store.agentRuns[id] == o.result.value && o.result.value.status == status)
            && (o.result.Success? && status != Failed ==> RunsOk(o.store, bounded))
  {
    hide Announcing, AgentAllowed, StatusRefused, RunsOk, RunsOkBut;
    var o := SetAgentStatusOnly(s, id, status, expected, details, event, valid);
    if o.result.Success? {
      AgentStatusCommitted(s, id, status, details.Some? && details.value, event, bounded);
    }
  }

  /** The reference names a revision its workflow run no longer has. */
  predicate Stale(s: Store, a: AgentRun) {
    && a.workflowRun.revision.Some?
    && a.workflowRun.id in s.workflowRuns
    && s.workflowRuns[a.workflowRun.id].revision != a.workflowRun.revision.value
  }

  /** The longest correlation identifier that leaves room for what the cascade adds. */
  const LONGEST := MAX_CORRELATION - 9

  lemma DerivedFits(correlation: string)
    ensures CorrelationFits(Derived(correlation)) <==> |correlation| <= LONGEST
  {
    assert |":workflow"| == 9;
  }

  /** What the cascade does to the store. */
  lemma CascadeEffect(s: Store, a: AgentRun, correlation: string, event: Id)
    requires AgentRunLinked(s, a)
    ensures var o := Cascade(s, a, correlation, event);
            if Stale(s, a) then o == Outcome(s, Failure(BadReference))
            else if !Owed(s, a) then o == Outcome(s, Success(a))
            else if !CorrelationFits(Derived(correlation)) then o == Outcome(s, Failure(SchemaInvalid))
            else if event in s.events then o == Outcome(s, Failure(Duplicate))
            else o.store == WithWorkflowStatus(s, a.workflowRun.id, Failed, event) && o.result.Success?
  {
    hide WithWorkflowStatus, CorrelationFits, Derived;
    assert WorkflowRunOk(s, a.workflowRun.id);
  }

  lemma SettledRuns(s: Store, a: Id, event: Id, bounded: bool)
    requires RunsOkBut(s, a, bounded) && Owed(s, s.agentRuns[a])
    ensures RunsOk(WithWorkflowStatus(s, s.agentRuns[a].workflowRun.id, Failed, event), bounded)
  {
    hide Announcing;
    var w := s.agentRuns[a].workflowRun.id;
    AnnouncingKeeps(s, Failed, event, s.workflowRuns[w].project, w);
    var s' := WithWorkflowStatus(s, w, Failed, event);
    forall v | v in s'.workflowRuns ensures WorkflowRunOk(s', v) { assert WorkflowRunOk(s, v); }
    forall b | b in s'.agentRuns ensures AgentRunOk(s', s'.agentRuns[b], bounded) {
      if b != a { assert AgentRunOk(s, s.agentRuns[b], bounded); }
    }
  }

  /** The cascade is refused exactly when the reference is stale or, where the workflow
      run is to be ended, the derived correlation identifier is too long or the event
      identifier collides; and it leaves a run behind that is owed an end exactly when
      it was refused for such a run. */
  lemma CascadeSettles(s: Store, a: Id, correlation: string, event: Id, bounded: bool)
    requires RunsOkBut(s, a, bounded) && s.agentRuns[a].status == Failed
    ensures var run := s.agentRuns[a];
            var o := Cascade(s, run, correlation, event);
            && (o.result.Success? <==>
                  !Stale(s, run) && (Owed(s, run) ==> |correlation| <= LONGEST && event !in s.events))
            && (RunsOk(o.store, bounded) <==> (Owed(s, run) ==> o.result.Success?))
            && (o.result.Failure? ==> o.store == s)
  {
    hide Cascade, WithWorkflowStatus, Stale;
    var run := s.agentRuns[a];
    CascadeEffect(s, run, correlation, event);
    DerivedFits(correlation);
    if Owed(s, run) {
      SettledRuns(s, a, event, bounded);
      assert !AgentRunOk(s, run, bounded);
    } else {
      assert AgentRunOk(s, run, bounded);
    }
  }

  /** What a status change of an agent run is checked for before it is written. */
  predicate AgentStatusAccepted(s: Store, id: Id, status: RunStatus, expected: int, details: Option<bool>,
                                event: Id, valid: bool)
  {
    id in s.agentRuns &&
    StatusRefused(AgentAllowed(s.agentRuns[id].status, status), status == Failed && details.None?, valid,
                  s.agentRuns[id].revision != expected, Announced(status) && event in s.events).None?
  }

  /** An accepted change alters the run, and the events if it is announced; whom the
      run is linked to and what it owes stays. */
  lemma AcceptedIsStored(s: Store, id: Id, status: RunStatus, expected: int, details: Option<bool>, event: Id,
                         valid: bool)
    ensures var o := SetAgentStatusOnly(s, id, status, expected, details, event, valid);
            && (AgentStatusAccepted(s, id, status, expected, details, event, valid) <==> o.result.Success?)
            && (o.result.Success? ==>
                  && o.store.workflowRuns == s.workflowRuns && o.store.workflows == s.workflows
                  && id in s.agentRuns && id in o.store.agentRuns
                  && o.store.agentRuns[id].workflowRun == s.agentRuns[id].workflowRun
                  && o.store.agentRuns[id].attempt == s.agentRuns[id].attempt
                  && o.store.agentRuns[id].status == status
                  && (AgentRunLinked(o.store, o.store.agentRuns[id]) <==> AgentRunLinked(s, s.agentRuns[id]))
                  && (AgentRunLinked(s, s.agentRuns[id]) ==>
                        (Owed(o.store, o.store.agentRuns[id]) <==> Owed(s, s.agentRuns[id])))
                  && (Stale(o.store, o.store.agentRuns[id]) <==> Stale(s, s.agentRuns[id]))
                  && (status == Failed ==> forall e :: e in o.store.events <==> e == event || e in s.events))
  {
    hide AgentAllowed, StatusRefused, Announcing, Terminal, Framed;
    if id in s.agentRuns {
      AnnouncingAdds(s, status, event, s.agentRuns[id].project, id);
      AnnouncingKeeps(s, status, event, s.agentRuns[id].project, id);
    }
  }

  lemma AnnouncingAdds(s: Store, status: RunStatus, event: Id, project: Id, run: Id)
    ensures Announced(status) ==> Announcing(s, status, event, project, run).events.Keys == s.events.Keys + {event}
  {
  }

  lemma ButLinked(s: Store, a: Id, bounded: bool)
    requires RunsOkBut(s, a, bounded)
    ensures a in s.agentRuns && AgentRunLinked(s, s.agentRuns[a])
  {
  }

  /** The last allowed failure is stored, and its workflow run cannot be ended. */
  ghost predicate LeavesOpen(s: Store, id: Id, status: RunStatus, expected: int, details: Option<bool>,
                             correlation: string, event: Id, cascade: Id, valid: bool)
  {
    && status == Failed && id in s.agentRuns && AgentRunLinked(s, s.agentRuns[id]) && Owed(s, s.agentRuns[id])
    && AgentStatusAccepted(s, id, status, expected, details, event, StatusValid(status, correlation, valid))
    && (Stale(s, s.agentRuns[id]) || |correlation| > LONGEST || cascade == event || cascade in s.events)
  }

  /** Setting an agent status keeps the run invariant exactly when it does not store a
      last failure without ending the workflow run. */
  lemma AgentStatusSettles(s: Store, id: Id, status: RunStatus, expected: int, details: Option<bool>,
                           correlation: string, event: Id, cascade: Id, valid: bool, bounded: bool)
    requires RunsOk(s, bounded)
    ensures RunsOk(SetAgentStatus(s, id, status, expected, details, correlation, event, cascade, valid).store, bounded)
            <==> !LeavesOpen(s, id, status, expected, details, correlation, event, cascade, valid)
  {
    hide RunsOk, RunsOkBut, Stale, Owed, AgentRunLinked, Cascade, SetAgentStatusOnly, AgentStatusAccepted,
      StatusValid;
    var ok := StatusValid(status, correlation, valid);
    AcceptedIsStored(s, id, status, expected, details, event, ok);
    AgentStatusKeepsRuns(s, id, status, expected, details, event, ok, bounded);
    var first := SetAgentStatusOnly(s, id, status, expected, details, event, ok);
    if first.result.Success? && status == Failed {
      ButLinked(first.store, id, bounded);
      CascadeSettles(first.store, id, correlation, cascade, bounded);
    }
  }

  /** Why the second step of a failing call is refused, when it is. */
  ghost function CascadeRefused(s: Store, run: AgentRun, correlation: string, event: Id, cascade: Id): Option<Error>
    requires AgentRunLinked(s, run)
  {
    if Stale(s, run) then Some(BadReference)
    else if !Owed(s, run) then None
    else if |correlation| > LONGEST then Some(SchemaInvalid)
    else if cascade == event || cascade in s.events then Some(Duplicate)
    else None
  }

  /** A failing call whose first step is accepted succeeds exactly when the run refers to
      its workflow run without a revision or by the current one and, if it is exhausted
      and that run is open, the correlation identifier leaves room for what the cascade
      adds and the cascade's event is new.  A reference to an old revision is refused on
      every failure, also while attempts are left.  Refused, the run is stored failed all
      the same, its workflow run is not touched, and the invariant breaks if it was owed
      its end. */
  lemma FailureIsCascadedIff(s: Store, id: Id, expected: int, details: Option<bool>, correlation: string, event: Id,
                             cascade: Id, valid: bool)
    requires RunsOk(s, false)
    requires AgentStatusAccepted(s, id, Failed, expected, details, event, StatusValid(Failed, correlation, valid))
    ensures var run := s.agentRuns[id];
            var o := SetAgentStatus(s, id, Failed, expected, details, correlation, event, cascade, valid);
            && AgentRunLinked(s, run)
            && var refused := CascadeRefused(s, run, correlation, event, cascade);
            && (o.result.Success? <==> refused.None?)
            && (o.result.Failure? ==>
                  && Some(o.result.error) == refused
                  && id in o.store.agentRuns && o.store.agentRuns[id].status == Failed
                  && o.store.workflowRuns == s.workflowRuns)
            && (o.result.Success? ==>
                  && run.workflowRun.id in s.workflowRuns
                  && var w := s.workflowRuns[run.workflowRun.id];
                     o.store.workflowRuns == if !Owed(s, run) then s.workflowRuns
                                             else s.workflowRuns[run.workflowRun.id :=
                                                    w.(status := Failed, revision := w.revision + 1)])
            && (RunsOk(o.store, false) <==> refused.None? || !Owed(s, run))
  {
    hide RunsOk, RunsOkBut, Owed, AgentRunLinked, Cascade, SetAgentStatusOnly, AgentStatusAccepted, StatusValid,
      CorrelationFits, Derived;
    var ok := StatusValid(Failed, correlation, valid);
    AcceptedIsStored(s, id, Failed, expected, details, event, ok);
    AgentStatusKeepsRuns(s, id, Failed, expected, details, event, ok, false);
    var first := SetAgentStatusOnly(s, id, Failed, expected, details, event, ok);
    ButLinked(first.store, id, false);
    CascadeSettles(first.store, id, correlation, cascade, false);
    CascadeEffect(first.store, first.result.value, correlation, cascade);
    DerivedFits(correlation);
    LinkedIsThere(s, s.agentRuns[id]);
  }

  lemma LinkedIsThere(s: Store, a: AgentRun)
    requires AgentRunLinked(s, a)
    ensures a.workflowRun.id in s.workflowRuns
  {
  }

  /** A new agent run whose attempt its workflow does not allow. */
  ghost predicate Overruns(s: Store, project: Id, workflowRun: Ref, attempt: int, id: Id, valid: bool) {
    && CreateAgentRun(s, project, workflowRun, attempt, id, valid).result.Success?
    && WorkflowRunOk(s, workflowRun.id)
    && !(1 <= attempt <= s.workflows[s.workflowRuns[workflowRun.id].workflow.id].maxAttempts)
  }

  lemma CreateAgentRunKeepsRuns(s: Store, project: Id, workflowRun: Ref, attempt: int, id: Id, valid: bool,
                                bounded: bool)
    requires RunsOk(s, bounded)
    ensures RunsOk(CreateAgentRun(s, project, workflowRun, attempt, id, valid).store, bounded) <==>
            (bounded ==> !Overruns(s, project, workflowRun, attempt, id, valid))
  {
    var o := CreateAgentRun(s, project, workflowRun, attempt, id, valid);
    if o.result.Success? {
      assert WorkflowRunOk(s, workflowRun.id);
      forall w | w in o.store.workflowRuns ensures WorkflowRunOk(o.store, w) { assert WorkflowRunOk(s, w); }
      assert AgentRunLinked(o.store, o.store.agentRuns[id]);
      forall a | a in o.store.agentRuns && a != id ensures AgentRunOk(o.store, o.store.agentRuns[a], bounded) {
        assert AgentRunOk(s, s.agentRuns[a], bounded);
      }
      assert AgentRunOk(o.store, o.store.agentRuns[id], bounded) <==>
             (bounded ==> !Overruns(s, project, workflowRun, attempt, id, valid));
    }
  }

  /** A retry gets a new attempt only while the bound leaves one: a run that failed
      for the last time has ended its workflow run, which refuses new runs. */
  lemma RetryKeepsRuns(s: Store, failed: Id, id: Id, valid: bool, bounded: bool)
    requires RunsOk(s, bounded)
    ensures RunsOk(RetryAgentRun(s, failed, id, valid).store, bounded)
    ensures RetryAgentRun(s, failed, id, valid).result.Success? ==>
              failed in s.agentRuns && AgentRunLinked(s, s.agentRuns[failed])
              && s.agentRuns[failed].attempt < MaxAttempts(s, s.agentRuns[failed])
  {
    hide CreateAgentRun;
    if failed in s.agentRuns && s.agentRuns[failed].status == Failed && s.agentRuns[failed].retryable {
      var f := s.agentRuns[failed];
      assert AgentRunOk(s, f, bounded);
      CreateNeedsOpen(s, f.project, f.workflowRun, f.attempt + 1, id, valid);
      CreateAgentRunKeepsRuns(s, f.project, f.workflowRun, f.attempt + 1, id, valid, bounded);
    }
  }

  lemma CreateNeedsOpen(s: Store, project: Id, workflowRun: Ref, attempt: int, id: Id, valid: bool)
    ensures CreateAgentRun(s, project, workflowRun, attempt, id, valid).result.Success? ==>
              workflowRun.id in s.workflowRuns && !Terminal(s.workflowRuns[workflowRun.id].status)
  {
  }

  // ------------------------------------------------------------ the other operations

  lemma AddWorkflowRun(s: Store, r: WorkflowRun, s': Store, bounded: bool)
    requires RunsOk(s, bounded) && r.id !in s.workflowRuns && WorkflowResolves(s, r.workflow)
    requires s'.workflowRuns == s.workflowRuns[r.id := r] && s'.agentRuns == s.agentRuns && s'.workflows == s.workflows
    ensures RunsOk(s', bounded)
  {
    forall w | w in s'.workflowRuns ensures WorkflowRunOk(s', w) {
      if w in s.workflowRuns { assert WorkflowRunOk(s, w); }
    }
    forall a | a in s'.agentRuns ensures AgentRunOk(s', s'.agentRuns[a], bounded) {
      assert AgentRunOk(s, s.agentRuns[a], bounded);
    }
  }

  lemma WorkflowRunKeepsRuns(s: Store, project: Ref, workflow: Ref, entry: Stage, attempt: int, id: Id,
                             valid: bool, bounded: bool)
    requires RunsOk(s, bounded)
    ensures RunsOk(CreateWorkflowRun(s, project, workflow, entry, attempt, id, valid).store, bounded)
  {
    hide RunsOk;
    var o := CreateWorkflowRun(s, project, workflow, entry, attempt, id, valid);
    if o.result.Success? {
      AddWorkflowRun(s, o.result.value, o.store, bounded);
    }
  }

  lemma AddWorkflow(s: Store, w: Workflow, s': Store, bounded: bool)
    requires RunsOk(s, bounded) && w.id !in s.workflows
    requires s'.workflowRuns == s.workflowRuns && s'.agentRuns == s.agentRuns && s'.workflows == s.workflows[w.id := w]
    ensures RunsOk(s', bounded) <==> (bounded ==> w.maxAttempts >= 1)
  {
    assert w.id in s'.workflows && s'.workflows[w.id] == w;
    forall v | v in s'.workflowRuns ensures WorkflowRunOk(s', v) { assert WorkflowRunOk(s, v); }
    forall a | a in s'.agentRuns ensures AgentRunOk(s', s'.agentRuns[a], bounded) {
      assert AgentRunOk(s, s.agentRuns[a], bounded);
    }
  }

  /** A new workflow that allows no attempt at all. */
  predicate AllowsNothing(s: Store, ev: Evidence, valid: bool) {
    valid && ev.NewWorkflow? && ev.newWorkflow.id !in s.workflows && ev.newWorkflow.maxAttempts < 1
  }

  lemma EvidenceKeepsRuns(s: Store, ev: Evidence, event: Id, valid: bool, eventValid: bool, bounded: bool)
    requires RunsOk(s, bounded)
    ensures RunsOk(RecordEvidence(s, ev, event, valid, eventValid).store, bounded) <==>
            (bounded ==> !AllowsNothing(s, ev, valid))
  {
    hide Recorded, Appended, RunsOk;
    WorkflowRecorded(s, ev, valid);
    RecordedFrame(s, ev, valid);
    if Recorded(s, ev, valid).Success? {
      var s1 := Recorded(s, ev, valid).value;
      if ev.NewWorkflow? { AddWorkflow(s, ev.newWorkflow, s1, bounded); } else { SameRuns(s, s1, bounded); }
      if OwnerOf(s, ev).Some? {
        var e := BuildEvent(s1, event, OwnerOf(s, ev).value, Lifecycle("evidence"));
        AppendedFrame(s1, e);
        SameRuns(s1, Appended(s1, e), bounded);
      }
    }
  }

  lemma WorkflowRecorded(s: Store, ev: Evidence, valid: bool)
    ensures ev.NewWorkflow? ==> (Recorded(s, ev, valid).Success? <==> valid && ev.newWorkflow.id !in s.workflows)
    ensures ev.NewWorkflow? ==> OwnerOf(s, ev).None? && !AlreadyGranted(s, ev)
  {
  }

  lemma TransitKeepsRuns(s: Store, cmd: Command, id: Id, event: Id, now: int, valid: bool, bounded: bool)
    requires RunsOk(s, bounded)
    ensures RunsOk(Transit(s, cmd, id, event, now, valid).store, bounded)
  {
    hide RunsOk, Checks, Appended;
    if cmd.project in s.projects {
      var t := RecordOf(cmd, id, Results(Checks(s, cmd, now)), VerdictOf(s, cmd, now));
      AppendedFrame(s, BuildEvent(s, event, cmd.project, DecisionEvent(cmd, t.verdict)));
      SameRuns(s, WithDecision(s, cmd, t, event), bounded);
    }
  }

  lemma CreateKeepsRuns(s: Store, correlation: string, id: Id, event: Id, valid: bool, bounded: bool)
    requires RunsOk(s, bounded)
    ensures RunsOk(CreateProject(s, correlation, id, event, valid).store, bounded)
  {
    hide RunsOk, Appended;
    AppendedFrame(s, BuildEvent(s, event, id, ProjectCreated(NoProject, 1)));
    SameRuns(s, WithProject(s, correlation, id, event), bounded);
  }

  lemma UpdateKeepsRuns(s: Store, id: Id, expected: int, nextAction: Option<string>, event: Id, valid: bool,
                        bounded: bool)
    requires RunsOk(s, bounded)
    ensures RunsOk(UpdateDetails(s, id, expected, nextAction, event, valid).store, bounded)
  {
    hide RunsOk, Appended;
    if id in s.projects {
      AppendedFrame(s, BuildEvent(s, event, id, ProjectUpdated(s.projects[id].revision + 1)));
      SameRuns(s, WithUpdate(s, id, nextAction, event), bounded);
    }
  }

  lemma WorkflowStatusStepKeepsRuns(s: Store, id: Id, status: RunStatus, expected: int, details: bool, event: Id,
                                    valid: bool, bounded: bool)
    requires RunsOk(s, bounded)
    ensures RunsOk(SetWorkflowStatus(s, id, status, expected, details, event, valid).store, bounded)
  {
    hide RunsOk, Announcing;
    if id in s.workflowRuns && WorkflowAllowed(s.workflowRuns[id].status, status) {
      AnnouncingKeeps(s, status, event, s.workflowRuns[id].project, id);
      WorkflowStatusKeepsRuns(s, id, status, WithWorkflowStatus(s, id, status, event), bounded);
    }
  }
}
