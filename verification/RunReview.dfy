/** Independent review over whole runs: nobody passes their own work, what is passed is what was handed in,
    and messages only travel between parties of neighbouring work (`run_review`). */
module RunReview {
  import opened Outcomes
  import opened Workflows
  import opened RunModel
  import opened RunInvariants
  import opened RunLedger
  import opened RunGate
  import opened Approvals

  ghost predicate IsChecked(row: Row, id: StepId) {
    id in row.steps && row.steps[id].checker.Some?
  }

  /** The checker's message to the maker that stands behind a verdict. */
  predicate IsVerdictMessage(m: Message, id: StepId, step: Step, kind: MessageKind) {
    m.step == id && Some(m.sender) == step.checker && m.receiver == step.owner && m.kind == kind
  }

  ghost predicate HasVerdict(messages: seq<Message>, id: StepId, step: Step, kind: MessageKind) {
    exists m :: m in messages && IsVerdictMessage(m, id, step, kind)
  }

  /** How a checked step comes to await its check, and how it leaves. */
  lemma VerbReviews(v: Verb, id: StepId, step: Step, row: Row, e: Env)
    requires EvidencePresent(v, e) && VerbEffect(v, id, step, row, e).Ok?
    requires step.checker.Some? && StepOk(step, row.runId, row.number)
    ensures var next := VerbEffect(v, id, step, row, e).value.step;
      && (next.status == Completed ==>
            v.CheckApprove? && step.status == AwaitingCheck && Some(v.actor) == step.checker
            && HasVerdict(row.messages, id, step, Decision))
      && (next.status == AwaitingCheck ==> v.Complete? && v.actor == step.owner)
  {
    if v.CheckApprove? {
      assert CheckRefused(row, id, step, v.actor, v.message, Decision, e).None?;
      var m := FindMessage(row.messages, v.message).value;
      assert m in row.messages && IsVerdictMessage(m, id, step, Decision);
    }
  }

  /** One row on: a checked step is passed only from awaiting its check, by its checker, with the checker's
      own decision on file; and it awaits a check only after its owner handed work in. */
  lemma ReviewStep(log: Log, i: nat, id: StepId)
    requires log != [] && Reached(log) && 0 < i < |log| && IsChecked(log[i - 1], id)
    ensures IsChecked(log[i], id) && SameShape(log[i - 1].steps[id], log[i].steps[id])
    ensures StatusAt(log[i], id) == Some(Completed) && StatusAt(log[i - 1], id) != Some(Completed) ==>
      && log[i].event == CheckApproved && log[i].target == id && Some(log[i].actor) == log[i].steps[id].checker
      && StatusAt(log[i - 1], id) == Some(AwaitingCheck) && HasVerdict(log[i].messages, id, log[i].steps[id], Decision)
    ensures StatusAt(log[i], id) == Some(AwaitingCheck) && StatusAt(log[i - 1], id) != Some(AwaitingCheck) ==>
      log[i].event == StepCompleted && log[i].target == id && log[i].actor == log[i].steps[id].owner
  {
    hide Reached, RowOk, Successor, NextRow, HasVerdict;
    var a := NeighbourAction(log, i);
    ReviewBetween(log[i - 1], a, id);
  }

  /** What one row says about the check of a step. */
  ghost predicate IsReviewed(p: Row, q: Row, id: StepId) {
    && IsChecked(p, id) && id in q.steps && SameShape(p.steps[id], q.steps[id])
    && (q.steps[id].status == Completed && p.steps[id].status != Completed ==>
          && q.event == CheckApproved && q.target == id && Some(q.actor) == q.steps[id].checker
          && p.steps[id].status == AwaitingCheck && HasVerdict(q.messages, id, q.steps[id], Decision))
    && (q.steps[id].status == AwaitingCheck && p.steps[id].status != AwaitingCheck ==>
          q.event == StepCompleted && q.target == id && q.actor == q.steps[id].owner)
  }

  lemma ReviewBetween(row: Row, a: Action, id: StepId)
    requires RowOk(row) && Successor(row, a).Some? && IsChecked(row, id)
    requires SameShapes(row.steps, Successor(row, a).value.steps)
    ensures IsReviewed(row, Successor(row, a).value, id)
  {
    hide RowOk, Successor, VerbEffect, HasVerdict, StepOk, EvidencePresent, Fits;
    var f := Between(row, a, id);
    assert SameShape(row.steps[id], Successor(row, a).value.steps[id]);
    if ActsOn(row, a, id) {
      StepIsOk(row, id);
      ReviewActs(row, a, id, f);
    }
  }

  lemma ReviewActs(row: Row, a: Action, id: StepId, f: Effect)
    requires Successor(row, a).Some? && IsChecked(row, id) && ActsOn(row, a, id)
    requires EvidencePresent(a.command.verb, a.env)
    requires StepOk(row.steps[id], row.runId, row.number)
    requires VerbEffect(a.command.verb, id, row.steps[id], row, a.env) == Ok(f)
    requires var next := Successor(row, a).value;
      && id in next.steps && next.steps[id].status == f.step.status && SameShape(row.steps[id], next.steps[id])
      && next.event == EventOf(a.command)
    ensures var next := Successor(row, a).value;
      && (next.steps[id].status == Completed ==>
            && next.event == CheckApproved && Some(next.actor) == next.steps[id].checker
            && row.steps[id].status == AwaitingCheck && HasVerdict(next.messages, id, next.steps[id], Decision))
      && (next.steps[id].status == AwaitingCheck ==> next.event == StepCompleted && next.actor == next.steps[id].owner)
  {
    hide Successor, VerbEffect, HasVerdict, StepOk, EvidencePresent;
    RowStamp(row, a);
    VerbReviews(a.command.verb, id, row.steps[id], row, a.env);
    SameVerdict(row.messages, id, row.steps[id], Successor(row, a).value.steps[id], Decision);
  }

  lemma SameVerdict(messages: seq<Message>, id: StepId, a: Step, b: Step, kind: MessageKind)
    requires SameShape(a, b)
    ensures HasVerdict(messages, id, a, kind) <==> HasVerdict(messages, id, b, kind)
  {
    forall m | m in messages ensures IsVerdictMessage(m, id, a, kind) <==> IsVerdictMessage(m, id, b, kind) {
    }
  }

  // --- nobody passes their own work ---------------------------------------------------------

  /** Admission gives every checked step a checker other than its owner, and nothing changes either. */
  lemma CheckerIsSomeoneElse(log: Log, i: nat, id: StepId)
    requires log != [] && Reached(log) && i < |log| && IsChecked(log[i], id)
    ensures log[i].steps[id].checker.value != log[i].steps[id].owner
  {
    hide Reached;
    ShapesStay(log, 0, i);
    assert SameShape(log[0].steps[id], log[i].steps[id]);
    FirstRow(log, id);
  }

  lemma CheckedAlways(log: Log, i: nat, id: StepId)
    requires log != [] && Reached(log) && 0 < i < |log| && IsChecked(log[i], id)
    ensures IsChecked(log[i - 1], id)
  {
    hide Reached;
    ShapesStay(log, i - 1, i);
    assert SameShape(log[i - 1].steps[id], log[i].steps[id]);
  }

  /** A step that awaits its check has done so without a break since its owner handed work in. */
  lemma {:induction false} CheckBeginsWithSubmission(log: Log, n: nat, id: StepId) returns (i: nat)
    requires log != [] && Reached(log) && n < |log|
    requires IsChecked(log[n], id) && StatusAt(log[n], id) == Some(AwaitingCheck)
    ensures 0 < i <= n && log[i].event == StepCompleted && log[i].target == id && IsChecked(log[i], id)
    ensures log[i].actor == log[i].steps[id].owner
    ensures forall j | i <= j <= n :: StatusAt(log[j], id) == Some(AwaitingCheck)
  {
    hide Reached;
    FirstRow(log, id);
    CheckedAlways(log, n, id);
    ReviewStep(log, n, id);
    if StatusAt(log[n - 1], id) == Some(AwaitingCheck) {
      i := CheckBeginsWithSubmission(log, n - 1, id);
    } else {
      i := n;
    }
  }

  /** Nobody passes their own work: a completed checked step was handed in by its owner, stood untouched
      while it awaited its check, and was passed by its checker, who is someone else and whose own
      decision message to the owner is on file. */
  lemma {:induction false} NobodyPassesTheirOwnWork(log: Log, n: nat, id: StepId) returns (i: nat, m: nat)
    requires log != [] && Reached(log) && n < |log|
    requires IsChecked(log[n], id) && StatusAt(log[n], id) == Some(Completed)
    ensures 0 < i < m <= n && IsChecked(log[i], id) && IsChecked(log[m], id)
    ensures log[i].event == StepCompleted && log[i].target == id && log[i].actor == log[i].steps[id].owner
    ensures log[m].event == CheckApproved && log[m].target == id && Some(log[m].actor) == log[m].steps[id].checker
    ensures log[m].actor != log[i].actor && HasVerdict(log[m].messages, id, log[m].steps[id], Decision)
    ensures forall j | i <= j < m :: StatusAt(log[j], id) == Some(AwaitingCheck)
    decreases n
  {
    hide Reached, HasVerdict;
    FirstRow(log, id);
    CheckedAlways(log, n, id);
    ReviewStep(log, n, id);
    if StatusAt(log[n - 1], id) == Some(Completed) {
      i, m := NobodyPassesTheirOwnWork(log, n - 1, id);
    } else {
      m := n;
      i := CheckBeginsWithSubmission(log, n - 1, id);
      CheckerIsSomeoneElse(log, n, id);
      ShapesStay(log, i, n);
      assert SameShape(log[i].steps[id], log[n].steps[id]);
    }
  }

  /** What is passed is what was handed in: a verdict is only ever recorded while the submission's file
      still has the digest it was handed in with, and the verdict's own text the digest it was filed with. */
  lemma VerdictSeesTheSubmission(log: Log, rid: string, id: StepId, v: Verb, e: Env) returns (m: Message)
    requires log != [] && (v.CheckApprove? || v.CheckReturn? || v.CheckReject?)
    requires Mutate(log, rid, OnStep(id, v), e).Applied?
    ensures id in Last(log).steps && Last(log).steps[id].submissions != []
    ensures var submission := Last(Last(log).steps[id].submissions);
      submission.evidence in e.disk && e.disk[submission.evidence] == submission.sha
    ensures m in Last(log).messages && m.id == v.message && m.payload in e.disk && e.disk[m.payload] == m.sha
    ensures IsVerdictMessage(m, id, Last(log).steps[id], if v.CheckApprove? then Decision else Feedback)
  {
    var row, kind := Last(log), if v.CheckApprove? then Decision else Feedback;
    assert CheckRefused(row, id, row.steps[id], v.actor, v.message, kind, e).None?;
    m := FindMessage(row.messages, v.message).value;
  }

  // --- messages -----------------------------------------------------------------------------

  /** Both parties work on the step, or one does and one works next to it; and they are two. */
  predicate IsBetweenNeighbours(m: Message, steps: Steps) {
    && m.step in steps && m.sender != m.receiver
    && var pair := {m.sender, m.receiver};
    (pair <= Parties(steps[m.step]) || (pair * Parties(steps[m.step]) != {} && pair * Neighbours(steps, m.step) != {}))
  }

  /** A reply answers an earlier message of the same step, the other way round. */
  ghost predicate AnswersEarlier(messages: seq<Message>, k: nat)
    requires k < |messages|
  {
    messages[k].replyTo.Some? ==>
      exists j :: 0 <= j < k && messages[j].id == messages[k].replyTo.value && messages[j].step == messages[k].step
        && messages[j].sender == messages[k].receiver && messages[j].receiver == messages[k].sender
  }

  ghost predicate MessagesOk(messages: seq<Message>, steps: Steps) {
    && (forall j, k | 0 <= j < k < |messages| :: messages[j].id != messages[k].id)
    && (forall k | 0 <= k < |messages| :: IsBetweenNeighbours(messages[k], steps))
    && (forall k | 0 <= k < |messages| :: AnswersEarlier(messages, k))
  }

  lemma SamePeople(a: Steps, b: Steps, m: Message)
    requires SameShapes(a, b) && IsBetweenNeighbours(m, a)
    ensures IsBetweenNeighbours(m, b)
  {
    assert SameShape(a[m.step], b[m.step]);
    assert forall id | id in a :: SameShape(a[id], b[id]) && Parties(a[id]) == Parties(b[id]);
    assert Neighbours(a, m.step) == Neighbours(b, m.step);
  }

  lemma ShapesKeepMessages(messages: seq<Message>, a: Steps, b: Steps)
    requires SameShapes(a, b) && MessagesOk(messages, a)
    ensures MessagesOk(messages, b)
  {
    hide IsBetweenNeighbours, AnswersEarlier, SameShapes;
    forall k | 0 <= k < |messages| ensures IsBetweenNeighbours(messages[k], b) {
      SamePeople(a, b, messages[k]);
    }
  }

  lemma SendKeepsMessages(c: Command, row: Row, e: Env)
    requires c.Send? && c.payload in e.disk && SendChange(c, row, e).Ok? && MessagesOk(row.messages, row.steps)
    ensures MessagesOk(SendChange(c, row, e).value.messages, row.steps)
  {
    var next := SendChange(c, row, e).value.messages;
    var n := |row.messages|;
    assert IsBetweenNeighbours(next[n], row.steps);
    forall k | 0 <= k < |next| ensures AnswersEarlier(next, k) {
      if k < n {
        AnswerStays(row.messages, next, k);
      } else if c.replyTo.Some? {
        var earlier := FindMessage(row.messages, c.replyTo.value).value;
        var j :| 0 <= j < n && row.messages[j] == earlier;
        assert next[j] == earlier;
      }
    }
  }

  lemma AnswerStays(messages: seq<Message>, more: seq<Message>, k: nat)
    requires messages <= more && k < |messages| && AnswersEarlier(messages, k)
    ensures AnswersEarlier(more, k)
  {
    if messages[k].replyTo.Some? {
      var j :| 0 <= j < k && messages[j].id == messages[k].replyTo.value && messages[j].step == messages[k].step
        && messages[j].sender == messages[k].receiver && messages[j].receiver == messages[k].sender;
      assert more[j] == messages[j] && more[k] == messages[k];
    }
  }

  lemma SuccessorMessages(row: Row, a: Action)
    requires Successor(row, a).Some?
    ensures var next := Successor(row, a).value;
      || next.messages == row.messages
      || (a.Ask? && a.command.Send? && a.command.payload in a.env.disk && SendChange(a.command, row, a.env).Ok?
          && next.messages == SendChange(a.command, row, a.env).value.messages)
  {
    hide SendChange, VerbEffect;
  }

  /** Messages are sound in every state: no two share an id, each is between two different parties of the
      step or of a neighbouring edge, and each reply reverses an earlier message about the same step. */
  lemma {:induction false} MessagesAreSound(log: Log)
    requires log != [] && Reached(log)
    ensures MessagesOk(Last(log).messages, Last(log).steps)
    decreases |log|
  {
    if |log| == 1 {
      FirstRow(log, "");
    } else {
      hide RowOk, Successor, NextRow, SameShapes, SendChange, MessagesOk;
      var a := LastAction(log);
      hide Reached;
      var row, next := Last(Front(log)), Last(log);
      MessagesAreSound(Front(log));
      SuccessorMessages(row, a);
      if next.messages != row.messages {
        SendKeepsMessages(a.command, row, a.env);
      }
      ShapesKeepMessages(next.messages, row.steps, next.steps);
    }
  }
}
