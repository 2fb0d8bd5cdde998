/** Outbound campaigns and their cases (internal/domain/campaign): status machine, retries, counters and
    automatic completion. Each service method is one atomic step over the two stored tables. */
module CampaignLedger {
  import opened Options
  import opened Sums

  datatype CampaignStatus = Draft | Running | Paused | Completed | Aborted

  datatype CaseStatus = Pending | Dialing | CaseCompleted | CaseFailed | CaseSkipped

  datatype Campaign = Campaign(status: CampaignStatus, total: int, completed: int, success: int, failed: int,
                               maxRetries: int)

  datatype Case = Case(campaignId: int, phone: string, status: CaseStatus, attempts: int, durationSec: int)

  datatype Store = Store(campaigns: map<int, Campaign>, cases: map<int, Case>)

  datatype Error = CampaignNotFound | CampaignNotDraft | CampaignNotRunning | CampaignNoCases | CaseNotFound
                 | InvalidDialingMode

  const DIALING_MODES: set<string> := {"predictive", "preview", "progressive", "power"}

  datatype Action =
    | Create(id: int, mode: string)
    | Start(id: int)
    | Pause(id: int)
    | Abort(id: int)
    | Import(id: int, phones: seq<string>, ids: seq<int>)
    | MarkCompleted(caseId: int, durationSec: int)
    | MarkFailed(caseId: int)
    | Skip(id: int, caseId: int)
    | Dial(id: int, caseId: int)

  // ---------------------------------------------------------------------------
  // The steps
  // ---------------------------------------------------------------------------

  function AutoComplete(c: Campaign): Campaign {
    if c.status == Running && c.total > 0 && c.completed >= c.total then c.(status := Completed) else c
  }

  ghost predicate HasPending(s: Store, id: int) {
    exists i :: i in s.cases && s.cases[i].campaignId == id && s.cases[i].status == Pending
  }

  function AddCases(cases: map<int, Case>, id: int, phones: seq<string>, ids: seq<int>): map<int, Case>
    requires |phones| <= |ids|
  {
    if phones == [] then cases
    else
      var n := |phones| - 1;
      AddCases(cases, id, phones[..n], ids)[ids[n] := Case(id, phones[n], Pending, 0, 0)]
  }

  function UpdateCampaign(s: Store, id: int, c: Campaign): Store {
    s.(campaigns := s.campaigns[id := c])
  }

  function UpdateCase(s: Store, i: int, cs: Case): Store {
    s.(cases := s.cases[i := cs])
  }

  // The case's campaign after one more finished case, if the campaign exists.
  function CountFinished(s: Store, id: int, won: int, lost: int): Store {
    if id !in s.campaigns then s
    else
      var c := s.campaigns[id];
      UpdateCampaign(s, id, AutoComplete(c.(completed := c.completed + 1, success := c.success + won,
                                            failed := c.failed + lost)))
  }

  function MaxRetries(s: Store, id: int): int {
    if id in s.campaigns then s.campaigns[id].maxRetries else 3
  }

  ghost function Do(s: Store, a: Action): (Store, Option<Error>)
    requires a.Import? ==> |a.phones| <= |a.ids|
  {
    match a
    case Create(id, mode) =>
      if mode !in DIALING_MODES then (s, Some(InvalidDialingMode))
      else (UpdateCampaign(s, id, Campaign(Draft, 0, 0, 0, 0, 3)), None)
    case Start(id) =>
      if id !in s.campaigns then (s, Some(CampaignNotFound))
      else
        var c := s.campaigns[id];
        if c.status != Draft && c.status != Paused then (s, Some(CampaignNotDraft))
        else if !HasPending(s, id) then (s, Some(CampaignNoCases))
        else (UpdateCampaign(s, id, c.(status := Running)), None)
    case Pause(id) =>
      if id !in s.campaigns then (s, Some(CampaignNotFound))
      else if s.campaigns[id].status != Running then (s, Some(CampaignNotRunning))
      else (UpdateCampaign(s, id, s.campaigns[id].(status := Paused)), None)
    case Abort(id) =>
      if id !in s.campaigns then (s, Some(CampaignNotFound))
      else if s.campaigns[id].status != Running && s.campaigns[id].status != Paused then (s, Some(CampaignNotRunning))
      else (UpdateCampaign(s, id, s.campaigns[id].(status := Aborted)), None)
    case Import(id, phones, ids) =>
      if id !in s.campaigns then (s, Some(CampaignNotFound))
      else
        var c := s.campaigns[id];
        (Store(s.campaigns[id := c.(total := c.total + |phones|)], AddCases(s.cases, id, phones, ids)), None)
    case MarkCompleted(i, durationSec) =>
      if i !in s.cases then (s, Some(CaseNotFound))
      else
        var cs := s.cases[i];
        if cs.status == CaseCompleted then (s, None)
        else
          var s1 := UpdateCase(s, i, cs.(status := CaseCompleted, durationSec := durationSec, attempts := cs.attempts + 1));
          (CountFinished(s1, cs.campaignId, if durationSec > 0 then 1 else 0, 0), None)
    case MarkFailed(i) =>
      if i !in s.cases then (s, Some(CaseNotFound))
      else
        var cs := s.cases[i];
        if cs.attempts + 1 >= MaxRetries(s, cs.campaignId) then
          var s1 := UpdateCase(s, i, cs.(status := CaseFailed, attempts := cs.attempts + 1));
          (CountFinished(s1, cs.campaignId, 0, 1), None)
        else (UpdateCase(s, i, cs.(status := Pending, attempts := cs.attempts + 1)), None)
    case Skip(id, i) =>
      if i !in s.cases || s.cases[i].campaignId != id then (s, Some(CaseNotFound))
      else (CountFinished(UpdateCase(s, i, s.cases[i].(status := CaseSkipped)), id, 0, 1), None)
    case Dial(id, i) =>
      if i !in s.cases || s.cases[i].campaignId != id then (s, Some(CaseNotFound))
      else (UpdateCase(s, i, s.cases[i].(status := Dialing, attempts := s.cases[i].attempts + 1)), None)
  }

  // New ids come from the id generator: distinct and unused.
  ghost predicate FreshIds(s: Store, a: Action) {
    && (a.Import? ==>
          && |a.phones| == |a.ids|
          && (forall k :: 0 <= k < |a.ids| ==> a.ids[k] !in s.cases)
          && forall j, k :: 0 <= j < k < |a.ids| ==> a.ids[j] != a.ids[k])
    && (a.Create? ==> a.id !in s.campaigns && forall i :: i in s.cases ==> s.cases[i].campaignId != a.id)
  }

  // ---------------------------------------------------------------------------
  // The ledger
  // ---------------------------------------------------------------------------

  predicate Unfinished(cs: Case) {
    cs.status == Pending || cs.status == Dialing
  }

  datatype Kind = Any | Finished | Won | Lost

  predicate Counts(k: Kind, id: int, cs: Case) {
    cs.campaignId == id &&
    match k
    case Any => true
    case Finished => !Unfinished(cs)
    case Won => cs.status == CaseCompleted && cs.durationSec > 0
    case Lost => cs.status == CaseFailed || cs.status == CaseSkipped
  }

  ghost function Members(cases: map<int, Case>, k: Kind, id: int): set<int> {
    set i | i in cases && Counts(k, id, cases[i])
  }

  ghost function Tally(cases: map<int, Case>, k: Kind, id: int): nat {
    |Members(cases, k, id)|
  }

  // The counters say what the cases say, and a running campaign has work left.
  ghost predicate Ledger(s: Store, id: int)
    requires id in s.campaigns
  {
    var c := s.campaigns[id];
    && c.total == Tally(s.cases, Any, id)
    && c.completed == Tally(s.cases, Finished, id)
    && c.success == Tally(s.cases, Won, id)
    && c.failed == Tally(s.cases, Lost, id)
    && (c.status == Running ==> exists i :: i in s.cases && s.cases[i].campaignId == id && Unfinished(s.cases[i]))
  }

  ghost predicate Ledgers(s: Store) {
    forall id :: id in s.campaigns ==> Ledger(s, id)
  }

  function Change(cases: map<int, Case>, i: int, cs: Case, k: Kind, id: int): int {
    (if Counts(k, id, cs) then 1 else 0) - (if i in cases && Counts(k, id, cases[i]) then 1 else 0)
  }

  lemma UpdateTally(cases: map<int, Case>, i: int, cs: Case, k: Kind, id: int)
    ensures Tally(cases[i := cs], k, id) == Tally(cases, k, id) + Change(cases, i, cs, k, id)
  {
    var before, after := Members(cases, k, id), Members(cases[i := cs], k, id);
    forall x
      ensures x in after - {i} <==> x in before - {i}
    {
    }
    assert after - {i} == before - {i};
    CountWithout(before, i);
    CountWithout(after, i);
    hide Members;
  }

  // Some case is unfinished exactly when fewer cases are finished than there are.
  lemma WorkLeft(cases: map<int, Case>, id: int)
    ensures Tally(cases, Finished, id) <= Tally(cases, Any, id)
    ensures Tally(cases, Finished, id) < Tally(cases, Any, id) <==>
      exists i :: i in cases && cases[i].campaignId == id && Unfinished(cases[i])
  {
    var all, done := Members(cases, Any, id), Members(cases, Finished, id);
    assert done <= all by {
      forall i | i in done
        ensures i in all
      {
        assert Counts(Any, id, cases[i]);
      }
    }
    assert done + (all - done) == all;
    assert |all| == |done| + |all - done|;
    if |done| < |all| {
      var i := Pick(all - done);
      assert Unfinished(cases[i]);
    }
    forall i | i in cases && cases[i].campaignId == id && Unfinished(cases[i])
      ensures i in all - done
    {
      assert Counts(Any, id, cases[i]);
    }
  }

  // An outcome, or a redial, recorded on a case that is already finished.
  ghost predicate Spoils(s: Store, a: Action) {
    match a
    case MarkCompleted(i, _) =>
      i in s.cases && s.cases[i].campaignId in s.campaigns && Counts(Lost, s.cases[i].campaignId, s.cases[i])
    case MarkFailed(i) =>
      i in s.cases && s.cases[i].campaignId in s.campaigns && !Unfinished(s.cases[i])
    case Skip(id, i) =>
      i in s.cases && s.cases[i].campaignId == id && id in s.campaigns && !Unfinished(s.cases[i])
    case Dial(id, i) =>
      i in s.cases && s.cases[i].campaignId == id && id in s.campaigns && !Unfinished(s.cases[i])
    case _ => false
  }

  // A step on case i leaves every other campaign's ledger alone.
  lemma OtherLedgers(s: Store, s': Store, i: int, id: int)
    requires Ledgers(s) && i in s.cases && i in s'.cases && s'.cases == s.cases[i := s'.cases[i]]
    requires s'.cases[i].campaignId == s.cases[i].campaignId
    requires id in s'.campaigns && id != s.cases[i].campaignId
    requires id in s.campaigns && s'.campaigns[id] == s.campaigns[id]
    ensures Ledger(s', id)
  {
    UpdateTallies(s.cases, i, s'.cases[i], id);
    WorkLeft(s.cases, id);
    WorkLeft(s'.cases, id);
  }

  lemma UpdateTallies(cases: map<int, Case>, i: int, cs: Case, id: int)
    ensures forall k :: Tally(cases[i := cs], k, id) == Tally(cases, k, id) + Change(cases, i, cs, k, id)
  {
    forall k {
      UpdateTally(cases, i, cs, k, id);
    }
  }

  lemma OwnLedgerIff(s: Store, a: Action, id: int)
    requires (a.MarkCompleted? || a.MarkFailed? || a.Skip? || a.Dial?) && a.caseId in s.cases && Do(s, a).0 != s
    requires id == s.cases[a.caseId].campaignId && id in s.campaigns && Ledger(s, id)
    ensures id in Do(s, a).0.campaigns && (Ledger(Do(s, a).0, id) <==> !Spoils(s, a))
  {
    var s', i := Do(s, a).0, a.caseId;
    UpdateTallies(s.cases, i, s'.cases[i], id);
    WorkLeft(s.cases, id);
    WorkLeft(s'.cases, id);
    assert s'.cases == s.cases[i := s'.cases[i]];
    hide Members, Tally;
  }

  /** A step on a case keeps the ledgers exactly when the case was not already finished (completing a
      completed case again is harmless). */
  lemma CaseStepKeepsLedgersIff(s: Store, a: Action)
    requires Ledgers(s) && (a.MarkCompleted? || a.MarkFailed? || a.Skip? || a.Dial?)
    ensures Ledgers(Do(s, a).0) <==> !Spoils(s, a)
  {
    var s' := Do(s, a).0;
    var i := a.caseId;
    if i in s.cases && s' != s {
      var id := s.cases[i].campaignId;
      forall other | other in s'.campaigns && other != id
        ensures Ledger(s', other)
      {
        OtherLedgers(s, s', i, other);
      }
      hide Ledger;
      if id in s.campaigns {
        OwnLedgerIff(s, a, id);
      }
    }
  }

  lemma {:induction false} ImportTallies(cases: map<int, Case>, id: int, phones: seq<string>, ids: seq<int>, k: Kind, other: int)
    requires |phones| <= |ids|
    requires forall j :: 0 <= j < |phones| ==> ids[j] !in cases
    requires forall j, l :: 0 <= j < l < |phones| ==> ids[j] != ids[l]
    ensures Tally(AddCases(cases, id, phones, ids), k, other)
         == Tally(cases, k, other) + (if k == Any && other == id then |phones| else 0)
    ensures forall i :: i in AddCases(cases, id, phones, ids) ==> i in cases || exists j :: 0 <= j < |phones| && ids[j] == i
    ensures forall i :: i in cases ==> i in AddCases(cases, id, phones, ids) && AddCases(cases, id, phones, ids)[i] == cases[i]
  {
    if phones != [] {
      var n := |phones| - 1;
      ImportTallies(cases, id, phones[..n], ids, k, other);
      UpdateTally(AddCases(cases, id, phones[..n], ids), ids[n], Case(id, phones[n], Pending, 0, 0), k, other);
    }
  }

  lemma ImportKeepsLedgers(s: Store, a: Action)
    requires Ledgers(s) && a.Import? && FreshIds(s, a)
    ensures Ledgers(Do(s, a).0)
  {
    var s' := Do(s, a).0;
    if a.id in s.campaigns {
      forall id | id in s'.campaigns
        ensures Ledger(s', id)
      {
        assert Ledger(s, id);
        forall k {
          ImportTallies(s.cases, a.id, a.phones, a.ids, k, id);
        }
        WorkLeft(s.cases, id);
        WorkLeft(s'.cases, id);
      }
    }
  }

  lemma ControlKeepsLedgers(s: Store, a: Action)
    requires Ledgers(s) && (a.Start? || a.Pause? || a.Abort?)
    ensures Ledgers(Do(s, a).0)
  {
    var s' := Do(s, a).0;
    forall id | id in s'.campaigns
      ensures Ledger(s', id)
    {
      assert Ledger(s, id);
    }
  }

  lemma NoCasesNoTally(cases: map<int, Case>, id: int)
    requires forall i :: i in cases ==> cases[i].campaignId != id
    ensures forall k :: Tally(cases, k, id) == 0
  {
    forall k: Kind
      ensures Tally(cases, k, id) == 0
    {
      forall i | i in cases
        ensures !Counts(k, id, cases[i])
      {
      }
      assert Members(cases, k, id) == {};
    }
  }

  lemma CreateKeepsLedgers(s: Store, a: Action)
    requires Ledgers(s) && a.Create? && FreshIds(s, a)
    ensures Ledgers(Do(s, a).0)
  {
    var s' := Do(s, a).0;
    forall id | id in s'.campaigns
      ensures Ledger(s', id)
    {
      if id == a.id {
        NoCasesNoTally(s'.cases, id);
      } else {
        assert Ledger(s, id);
      }
    }
  }

  /** Every step keeps every campaign's ledger exactly when it is not an outcome on a finished case. */
  lemma StepKeepsLedgersIff(s: Store, a: Action)
    requires Ledgers(s) && FreshIds(s, a)
    ensures Ledgers(Do(s, a).0) <==> !Spoils(s, a)
  {
    if a.Import? {
      ImportKeepsLedgers(s, a);
    } else if a.Create? {
      CreateKeepsLedgers(s, a);
    } else if a.Start? || a.Pause? || a.Abort? {
      ControlKeepsLedgers(s, a);
    } else {
      CaseStepKeepsLedgersIff(s, a);
    }
  }

  // ---------------------------------------------------------------------------
  // Runs
  // ---------------------------------------------------------------------------

  ghost predicate CleanRun(s: Store, acts: seq<Action>)
    decreases |acts|
  {
    acts == [] || (FreshIds(s, acts[0]) && !Spoils(s, acts[0]) && CleanRun(Do(s, acts[0]).0, acts[1..]))
  }

  ghost function Run(s: Store, acts: seq<Action>): Store
    requires CleanRun(s, acts)
    decreases |acts|
  {
    if acts == [] then s else Run(Do(s, acts[0]).0, acts[1..])
  }

  predicate Terminal(c: Campaign) {
    c.status == Completed || c.status == Aborted
  }

  lemma TerminalStays(s: Store, a: Action, id: int)
    requires FreshIds(s, a) && id in s.campaigns && Terminal(s.campaigns[id])
    ensures id in Do(s, a).0.campaigns && Do(s, a).0.campaigns[id].status == s.campaigns[id].status
  {
  }

  lemma {:induction false} LedgersLast(s: Store, acts: seq<Action>)
    requires Ledgers(s) && CleanRun(s, acts)
    ensures Ledgers(Run(s, acts))
    decreases |acts|
  {
    if acts != [] {
      StepKeepsLedgersIff(s, acts[0]);
      LedgersLast(Do(s, acts[0]).0, acts[1..]);
    }
  }

  lemma {:induction false} TerminalLasts(s: Store, acts: seq<Action>, id: int)
    requires CleanRun(s, acts) && id in s.campaigns && Terminal(s.campaigns[id])
    ensures id in Run(s, acts).campaigns && Run(s, acts).campaigns[id].status == s.campaigns[id].status
    decreases |acts|
  {
    if acts != [] {
      TerminalStays(s, acts[0], id);
      TerminalLasts(Do(s, acts[0]).0, acts[1..], id);
    }
  }

  const EMPTY: Store := Store(map[], map[])

  // A true ledger, said of the cases themselves.
  lemma LedgerMeans(s: Store, id: int)
    requires id in s.campaigns && Ledger(s, id)
    ensures var c := s.campaigns[id];
      && c.total == |set i | i in s.cases && s.cases[i].campaignId == id|
      && c.completed == |set i | i in s.cases && s.cases[i].campaignId == id
                                 && s.cases[i].status in {CaseCompleted, CaseFailed, CaseSkipped}|
      && c.success == |set i | i in s.cases && s.cases[i].campaignId == id && s.cases[i].status == CaseCompleted
                               && s.cases[i].durationSec > 0|
      && c.failed == |set i | i in s.cases && s.cases[i].campaignId == id && s.cases[i].status in {CaseFailed, CaseSkipped}|
  {
    var all := set i | i in s.cases && s.cases[i].campaignId == id;
    var finished := set i | i in s.cases && s.cases[i].campaignId == id
                            && s.cases[i].status in {CaseCompleted, CaseFailed, CaseSkipped};
    var won := set i | i in s.cases && s.cases[i].campaignId == id && s.cases[i].status == CaseCompleted
                       && s.cases[i].durationSec > 0;
    var lost := set i | i in s.cases && s.cases[i].campaignId == id && s.cases[i].status in {CaseFailed, CaseSkipped};
    TallyCounts(s.cases, Any, id, all);
    TallyCounts(s.cases, Finished, id, finished);
    TallyCounts(s.cases, Won, id, won);
    TallyCounts(s.cases, Lost, id, lost);
  }

  lemma TallyCounts(cases: map<int, Case>, k: Kind, id: int, counted: set<int>)
    requires forall i :: i in counted <==> i in cases && Counts(k, id, cases[i])
    ensures Tally(cases, k, id) == |counted|
  {
    hide Counts;
    forall i
      ensures i in Members(cases, k, id) <==> i in counted
    {
    }
    assert Members(cases, k, id) == counted;
  }

  /** Over every run from empty tables that records outcomes on unfinished cases only: total counts the cases,
      completed those completed, failed or skipped, success the completed ones with a duration, failed the
      failed and skipped ones; and a running campaign has a pending or dialing case. Completed and Aborted are
      final. */
  lemma RunKeepsLedgers(acts: seq<Action>, more: seq<Action>, id: int)
    requires CleanRun(EMPTY, acts) && id in Run(EMPTY, acts).campaigns && CleanRun(Run(EMPTY, acts), more)
    ensures var s := Run(EMPTY, acts); var c := s.campaigns[id];
      && c.total == |set i | i in s.cases && s.cases[i].campaignId == id|
      && c.completed == |set i | i in s.cases && s.cases[i].campaignId == id
                                 && s.cases[i].status in {CaseCompleted, CaseFailed, CaseSkipped}|
      && c.success == |set i | i in s.cases && s.cases[i].campaignId == id && s.cases[i].status == CaseCompleted
                               && s.cases[i].durationSec > 0|
      && c.failed == |set i | i in s.cases && s.cases[i].campaignId == id && s.cases[i].status in {CaseFailed, CaseSkipped}|
      && (c.status == Running ==>
            exists i :: i in s.cases && s.cases[i].campaignId == id && s.cases[i].status in {Pending, Dialing})
    ensures Run(EMPTY, acts).campaigns[id].status in {Completed, Aborted} ==>
      && id in Run(Run(EMPTY, acts), more).campaigns
      && Run(Run(EMPTY, acts), more).campaigns[id].status == Run(EMPTY, acts).campaigns[id].status
  {
    LedgersLast(EMPTY, acts);
    assert Ledger(Run(EMPTY, acts), id);
    LedgerMeans(Run(EMPTY, acts), id);
    hide Run;
    if Terminal(Run(EMPTY, acts).campaigns[id]) {
      TerminalLasts(Run(EMPTY, acts), more, id);
    }
  }

  /** A campaign completes by itself exactly when the last case of a running campaign finishes. */
  lemma CompletesWithLastCase(s: Store, a: Action, id: int)
    requires Ledgers(s) && FreshIds(s, a) && !Spoils(s, a)
    requires id in s.campaigns && s.campaigns[id].status == Running
    ensures id in Do(s, a).0.campaigns
    ensures Do(s, a).0.campaigns[id].status == Completed <==> AllFinished(Do(s, a).0, id)
  {
    var s' := Do(s, a).0;
    StepKeepsLedgersIff(s, a);
    assert Ledger(s, id) && Ledger(s', id);
    WorkLeft(s.cases, id);
    WorkLeft(s'.cases, id);
    if s'.campaigns[id].status != Completed && s'.campaigns[id].status != Running {
      assert s'.cases == s.cases;
    }
  }

  // ---------------------------------------------------------------------------
  // Retries run out
  // ---------------------------------------------------------------------------

  function Left(cs: Case, id: int, maxRetries: int): nat {
    if cs.campaignId != id || !Unfinished(cs) then 0
    else if maxRetries - cs.attempts > 1 then maxRetries - cs.attempts else 1
  }

  function LeftAt(cases: map<int, Case>, id: int, maxRetries: int): int -> int {
    i => if i in cases then Left(cases[i], id, maxRetries) else 0
  }

  // Outcomes the campaign's unfinished cases can still absorb.
  ghost function Budget(s: Store, id: int): int {
    Total(s.cases.Keys, LeftAt(s.cases, id, MaxRetries(s, id)))
  }

  // An outcome recorded on an unfinished case of the campaign.
  ghost predicate Outcome(s: Store, a: Action, id: int) {
    && (a.MarkCompleted? || a.MarkFailed? || (a.Skip? && a.id == id))
    && a.caseId in s.cases && s.cases[a.caseId].campaignId == id && Unfinished(s.cases[a.caseId])
  }

  lemma StepSpendsBudget(s: Store, a: Action, id: int)
    requires FreshIds(s, a) && !Spoils(s, a) && id in s.campaigns && !(a.Import? && a.id == id)
    ensures id in Do(s, a).0.campaigns && Do(s, a).0.campaigns[id].maxRetries == s.campaigns[id].maxRetries
    ensures Budget(Do(s, a).0, id) + (if Outcome(s, a, id) then 1 else 0) <= Budget(s, id)
  {
    var s' := Do(s, a).0;
    var r := s.campaigns[id].maxRetries;
    if a.Import? {
      if a.id in s.campaigns {
        ImportAddsNothing(s.cases, a.id, a.phones, a.ids, id, r);
      }
    } else if a.Create? || a.Start? || a.Pause? || a.Abort? {
      assert s'.cases == s.cases;
    } else {
      CaseStepSpends(s, a, id);
      if a.caseId in s.cases {
        ChangeOne(s.cases.Keys, LeftAt(s.cases, id, r), LeftAt(s'.cases, id, r), a.caseId);
      }
    }
  }

  // A recorded outcome takes at least one from what its case can absorb; nothing gives any back.
  lemma CaseStepSpends(s: Store, a: Action, id: int)
    requires (a.MarkCompleted? || a.MarkFailed? || a.Skip? || a.Dial?) && !Spoils(s, a) && id in s.campaigns
    ensures var s' := Do(s, a).0;
      && s'.cases.Keys == s.cases.Keys
      && (forall i :: i in s.cases && i != a.caseId ==> s'.cases[i] == s.cases[i])
      && (if a.caseId !in s.cases then s' == s else
            Left(s'.cases[a.caseId], id, s.campaigns[id].maxRetries) + (if Outcome(s, a, id) then 1 else 0)
              <= Left(s.cases[a.caseId], id, s.campaigns[id].maxRetries))
  {
  }

  lemma {:induction false} ImportAddsNothing(cases: map<int, Case>, from: int, phones: seq<string>, ids: seq<int>,
                                             id: int, r: int)
    requires |phones| <= |ids| && from != id
    requires forall j :: 0 <= j < |phones| ==> ids[j] !in cases
    requires forall j, l :: 0 <= j < l < |phones| ==> ids[j] != ids[l]
    ensures Total(AddCases(cases, from, phones, ids).Keys, LeftAt(AddCases(cases, from, phones, ids), id, r))
         == Total(cases.Keys, LeftAt(cases, id, r))
  {
    if phones != [] {
      var n := |phones| - 1;
      var before := AddCases(cases, from, phones[..n], ids);
      var after := AddCases(cases, from, phones, ids);
      ImportAddsNothing(cases, from, phones[..n], ids, id, r);
      ImportTallies(cases, from, phones[..n], ids, Any, id);
      assert ids[n] !in before;
      assert after == before[ids[n] := Case(from, phones[n], Pending, 0, 0)];
      hide AddCases, Tally, Total;
      assert after.Keys == before.Keys + {ids[n]};
      AddElement(before.Keys, LeftAt(after, id, r), ids[n]);
      SameTerms(before.Keys, LeftAt(before, id, r), LeftAt(after, id, r));
    }
  }

  ghost function Outcomes(s: Store, acts: seq<Action>, id: int): nat
    requires CleanRun(s, acts)
    decreases |acts|
  {
    if acts == [] then 0
    else (if Outcome(s, acts[0], id) then 1 else 0) + Outcomes(Do(s, acts[0]).0, acts[1..], id)
  }

  ghost predicate NoImports(acts: seq<Action>, id: int) {
    forall k :: 0 <= k < |acts| ==> !(acts[k].Import? && acts[k].id == id)
  }

  lemma {:induction false} RunSpendsBudget(s: Store, acts: seq<Action>, id: int)
    requires CleanRun(s, acts) && id in s.campaigns && NoImports(acts, id)
    ensures Budget(Run(s, acts), id) + Outcomes(s, acts, id) <= Budget(s, id)
    decreases |acts|
  {
    if acts != [] {
      StepSpendsBudget(s, acts[0], id);
      assert forall k :: 0 <= k < |acts[1..]| ==> acts[1..][k] == acts[k + 1];
      RunSpendsBudget(Do(s, acts[0]).0, acts[1..], id);
    }
  }

  lemma FreshBudget(s: Store, id: int)
    requires id in s.campaigns && forall i :: i in Members(s.cases, Any, id) ==> s.cases[i].attempts == 0
    ensures Budget(s, id) <= Tally(s.cases, Any, id) * Most(s, id)
  {
    var f := LeftAt(s.cases, id, s.campaigns[id].maxRetries);
    BudgetIsOverMembers(s.cases, s.cases.Keys, id, s.campaigns[id].maxRetries);
    assert Members(s.cases, Any, id) * s.cases.Keys == Members(s.cases, Any, id);
    forall i | i in Members(s.cases, Any, id)
      ensures 0 <= f(i) <= Most(s, id)
    {
      assert f(i) == Left(s.cases[i], id, s.campaigns[id].maxRetries);
    }
    AtMostTimes(Members(s.cases, Any, id), f, Most(s, id));
  }

  // max(1, MaxRetries)
  function Most(s: Store, id: int): int {
    if MaxRetries(s, id) > 1 then MaxRetries(s, id) else 1
  }

  lemma UnfinishedHasBudget(s: Store, id: int)
    ensures Budget(s, id) >= 0
    ensures Budget(s, id) == 0 ==> AllFinished(s, id)
  {
    var f := LeftAt(s.cases, id, MaxRetries(s, id));
    forall i | i in s.cases
      ensures f(i) >= 0
    {
      assert f(i) == Left(s.cases[i], id, MaxRetries(s, id));
    }
    NonNegative(s.cases.Keys, f);
    forall i | i in s.cases && s.cases[i].campaignId == id && Unfinished(s.cases[i])
      ensures Budget(s, id) >= 1
    {
      AtLeastTerm(s.cases.Keys, f, i);
    }
  }

  ghost predicate AllFinished(s: Store, id: int) {
    forall i :: i in s.cases && s.cases[i].campaignId == id ==> !Unfinished(s.cases[i])
  }

  /** Retrying ends: the campaign's n never-attempted cases absorb at most n * max(1, MaxRetries) outcomes,
      and once they have absorbed that many every case of the campaign is finished. */
  lemma RetriesRunOut(s: Store, acts: seq<Action>, id: int)
    requires CleanRun(s, acts) && id in s.campaigns && NoImports(acts, id)
    requires forall i :: i in Members(s.cases, Any, id) ==> s.cases[i].attempts == 0
    ensures var bound := Tally(s.cases, Any, id) * Most(s, id);
      && Outcomes(s, acts, id) <= bound
      && (Outcomes(s, acts, id) == bound ==> AllFinished(Run(s, acts), id))
  {
    RunSpendsBudget(s, acts, id);
    FreshBudget(s, id);
    UnfinishedHasBudget(Run(s, acts), id);
  }

  lemma {:induction false} BudgetIsOverMembers(cases: map<int, Case>, keys: set<int>, id: int, r: int)
    requires keys <= cases.Keys
    ensures Total(keys, LeftAt(cases, id, r)) == Total(Members(cases, Any, id) * keys, LeftAt(cases, id, r))
    decreases keys
  {
    var f, m := LeftAt(cases, id, r), Members(cases, Any, id);
    if keys != {} {
      var x := Pick(keys);
      TakeOut(keys, f, x);
      BudgetIsOverMembers(cases, keys - {x}, id, r);
      assert x !in m ==> f(x) == 0;
      if x in m {
        TakeOut(m * keys, f, x);
        assert m * keys - {x} == m * (keys - {x});
      } else {
        assert m * keys == m * (keys - {x});
      }
    } else {
      assert m * keys == {};
    }
  }

  /** A recorded failure spends one attempt; the case is failed for good exactly when its attempts have then
      reached what its campaign tolerates (3 when the campaign is gone), and otherwise pending again. Only the
      last failure counts in the campaign. */
  lemma FailedCaseIsRetried(s: Store, i: int)
    requires i in s.cases
    ensures var cs := s.cases[i];
      var tolerated := if cs.campaignId in s.campaigns then s.campaigns[cs.campaignId].maxRetries else 3;
      var s', failed := Do(s, MarkFailed(i)).0, cs.attempts + 1 >= tolerated;
      && Do(s, MarkFailed(i)).1.None?
      && s'.cases == s.cases[i := Case(cs.campaignId, cs.phone, if failed then CaseFailed else Pending, cs.attempts + 1,
                                       cs.durationSec)]
      && s'.campaigns.Keys == s.campaigns.Keys
      && (forall id :: id in s.campaigns && (!failed || id != cs.campaignId) ==> s'.campaigns[id] == s.campaigns[id])
      && (failed && cs.campaignId in s.campaigns ==>
            var c, c' := s.campaigns[cs.campaignId], s'.campaigns[cs.campaignId];
            && c'.completed == c.completed + 1 && c'.failed == c.failed + 1 && c'.success == c.success
            && c'.total == c.total && c'.maxRetries == c.maxRetries)
  {
  }

  // Of the operations on the case the run has only recorded failures.
  ghost predicate OnlyFailures(acts: seq<Action>, i: int) {
    forall k :: 0 <= k < |acts| && (acts[k].MarkCompleted? || acts[k].Skip? || acts[k].Dial?) ==> acts[k].caseId != i
  }

  function Failures(acts: seq<Action>, i: int): nat {
    if acts == [] then 0 else (if acts[0] == MarkFailed(i) then 1 else 0) + Failures(acts[1..], i)
  }

  // The case after so many failures of so many that it can absorb.
  ghost predicate AfterFailures(s: Store, i: int, id: int, tolerated: int, failures: nat) {
    && i in s.cases && s.cases[i].campaignId == id && s.cases[i].attempts == failures
    && s.cases[i].status == (if failures < (if tolerated > 1 then tolerated else 1) then Pending else CaseFailed)
    && tolerated == if id in s.campaigns then s.campaigns[id].maxRetries else 3
  }

  lemma StepAddsFailure(s: Store, a: Action, i: int, id: int, tolerated: int, failures: nat)
    requires AfterFailures(s, i, id, tolerated, failures) && FreshIds(s, a) && OnlyFailures([a], i)
    ensures AfterFailures(Do(s, a).0, i, id, tolerated, failures + if a == MarkFailed(i) then 1 else 0)
  {
    assert a == [a][0];
    if a.Import? && a.id in s.campaigns {
      ImportTallies(s.cases, a.id, a.phones, a.ids, Any, id);
      hide AddCases;
    }
  }

  lemma {:induction false} RunAddsFailures(s: Store, acts: seq<Action>, i: int, id: int, tolerated: int, failures: nat)
    requires AfterFailures(s, i, id, tolerated, failures) && CleanRun(s, acts) && OnlyFailures(acts, i)
    ensures AfterFailures(Run(s, acts), i, id, tolerated, failures + Failures(acts, i))
    decreases |acts|
  {
    if acts != [] {
      hide Do, AfterFailures;
      assert OnlyFailures([acts[0]], i);
      assert forall k :: 0 <= k < |acts[1..]| ==> acts[1..][k] == acts[k + 1];
      StepAddsFailure(s, acts[0], i, id, tolerated, failures);
      RunAddsFailures(Do(s, acts[0]).0, acts[1..], i, id, tolerated, failures + if acts[0] == MarkFailed(i) then 1 else 0);
    }
  }

  /** Retries are made, too: over every run a fresh case on which only failures are recorded is pending again
      after k of them exactly while k is below max(1, MaxRetries), and failed from then on. */
  lemma RetriesAreMade(s: Store, acts: seq<Action>, i: int)
    requires CleanRun(s, acts) && OnlyFailures(acts, i)
    requires i in s.cases && s.cases[i].status == Pending && s.cases[i].attempts == 0
    ensures var id, k := s.cases[i].campaignId, Failures(acts, i);
      var tolerated := if id in s.campaigns then s.campaigns[id].maxRetries else 3;
      var cs := Run(s, acts).cases;
      && i in cs && cs[i].attempts == k
      && (k < (if tolerated > 1 then tolerated else 1) ==> cs[i].status == Pending)
      && (k >= (if tolerated > 1 then tolerated else 1) ==> cs[i].status == CaseFailed)
  {
    var id := s.cases[i].campaignId;
    var tolerated := if id in s.campaigns then s.campaigns[id].maxRetries else 3;
    RunAddsFailures(s, acts, i, id, tolerated, 0);
  }

  /** What can become of a stored case in one step: each outcome, skip and redial, and nothing else. */
  lemma CaseMovesIff(s: Store, a: Action, i: int)
    requires FreshIds(s, a) && i in s.cases
    ensures var c, s' := s.cases[i], Do(s, a).0;
      && i in s'.cases
      && var d := s'.cases[i];
      && (a.MarkCompleted? && a.caseId == i ==>
            d == if c.status == CaseCompleted then c
                 else Case(c.campaignId, c.phone, CaseCompleted, c.attempts + 1, a.durationSec))
      && (a == Skip(c.campaignId, i) ==> d == Case(c.campaignId, c.phone, CaseSkipped, c.attempts, c.durationSec))
      && (a == Dial(c.campaignId, i) ==> d == Case(c.campaignId, c.phone, Dialing, c.attempts + 1, c.durationSec))
      && (d != c ==> (a.MarkCompleted? && a.caseId == i) || a == MarkFailed(i)
                     || a == Skip(c.campaignId, i) || a == Dial(c.campaignId, i))
  {
    if a.Import? && a.id in s.campaigns {
      ImportTallies(s.cases, a.id, a.phones, a.ids, Any, 0);
      hide AddCases;
    }
  }

  /** How a campaign's status can change in one step: started with a pending case, paused, aborted, or completed
      by an outcome that leaves as many finished cases as there are. */
  lemma StatusMovesIff(s: Store, a: Action, id: int)
    requires FreshIds(s, a) && id in s.campaigns
    ensures id in Do(s, a).0.campaigns
    ensures var c, d := s.campaigns[id], Do(s, a).0.campaigns[id];
      && (d.status == Running && c.status != Running <==>
            a == Start(id) && c.status in {Draft, Paused}
            && exists i :: i in s.cases && s.cases[i].campaignId == id && s.cases[i].status == Pending)
      && (d.status == Paused && c.status != Paused <==> a == Pause(id) && c.status == Running)
      && (d.status == Aborted && c.status != Aborted <==> a == Abort(id) && c.status in {Running, Paused})
      && (d.status == Completed && c.status != Completed <==>
            c.status == Running && d.completed > c.completed && d.completed >= d.total > 0)
      && (d.status == Draft ==> c.status == Draft)
  {
  }

  /** A step is refused, and then changes nothing, exactly for the reasons the errors name. */
  lemma RefusedIff(s: Store, a: Action)
    requires FreshIds(s, a)
    ensures var r := Do(s, a);
      && (r.1.Some? ==> r.0 == s)
      && (a.Start? || a.Pause? || a.Abort? || a.Import? ==> (r.1 == Some(CampaignNotFound) <==> a.id !in s.campaigns))
      && (a.Start? && a.id in s.campaigns ==>
            && (r.1 == Some(CampaignNotDraft) <==> s.campaigns[a.id].status !in {Draft, Paused})
            && (r.1 == Some(CampaignNoCases) <==>
                  s.campaigns[a.id].status in {Draft, Paused}
                  && !exists i :: i in s.cases && s.cases[i].campaignId == a.id && s.cases[i].status == Pending))
      && (a.Pause? && a.id in s.campaigns ==> (r.1 == Some(CampaignNotRunning) <==> s.campaigns[a.id].status != Running))
      && (a.Abort? && a.id in s.campaigns ==>
            (r.1 == Some(CampaignNotRunning) <==> s.campaigns[a.id].status !in {Running, Paused}))
      && (a.MarkCompleted? || a.MarkFailed? ==> (r.1 == Some(CaseNotFound) <==> a.caseId !in s.cases))
      && (a.Skip? || a.Dial? ==>
            (r.1 == Some(CaseNotFound) <==> a.caseId !in s.cases || s.cases[a.caseId].campaignId != a.id))
  {
  }

  /** An import adds, for each number, a pending case without attempts under its own id, and nothing else. */
  lemma {:induction false} ImportAdds(cases: map<int, Case>, id: int, phones: seq<string>, ids: seq<int>)
    requires |phones| <= |ids| && forall j, k :: 0 <= j < k < |phones| ==> ids[j] != ids[k]
    ensures var after := AddCases(cases, id, phones, ids);
      && (forall k :: 0 <= k < |phones| ==> ids[k] in after && after[ids[k]] == Case(id, phones[k], Pending, 0, 0))
      && (forall i :: i !in ids[..|phones|] ==> (i in after <==> i in cases) && (i in cases ==> after[i] == cases[i]))
  {
    if phones != [] {
      var n := |phones| - 1;
      ImportAdds(cases, id, phones[..n], ids);
      assert ids[..|phones|] == ids[..n] + [ids[n]];
    }
  }

  /** Every number that is neither empty nor blocked becomes as many cases as it has rows. */
  lemma {:induction false} DialableIff(inputs: seq<string>, blocked: set<string>, n: string)
    ensures multiset(Dialable(inputs, blocked))[n] == if n == "" || n in blocked then 0 else multiset(inputs)[n]
  {
    if inputs != [] {
      var k := |inputs| - 1;
      assert inputs == inputs[..k] + [inputs[k]];
      DialableIff(inputs[..k], blocked, n);
    }
  }

  // The phone numbers that become cases: neither empty nor blocked.
  function Dialable(inputs: seq<string>, blocked: set<string>): seq<string> {
    if inputs == [] then []
    else
      var rest := Dialable(inputs[..|inputs| - 1], blocked);
      var n := inputs[|inputs| - 1];
      if n == "" || n in blocked then rest else rest + [n]
  }

  /** CampaignService over its two tables. */
  class CampaignService {
    var campaigns: map<int, Campaign>
    var cases: map<int, Case>

    ghost function View(): Store
      reads this
    {
      Store(campaigns, cases)
    }

    constructor ()
      ensures View() == EMPTY && Ledgers(View())
    {
      campaigns, cases := map[], map[];
    }

    /** Create: a draft with the generator's id. */
    method CreateCampaign(id: int, mode: string) returns (err: Option<Error>)
      requires FreshIds(View(), Create(id, mode))
      modifies this
      ensures (View(), err) == Do(old(View()), Create(id, mode))
      ensures err.Some? <==> mode !in {"predictive", "preview", "progressive", "power"}
      ensures err.None? ==> campaigns == old(campaigns)[id := Campaign(Draft, 0, 0, 0, 0, 3)]
      ensures old(Ledgers(View())) ==> Ledgers(View())
    {
      ghost var before := View();
      if Ledgers(before) {
        StepKeepsLedgersIff(before, Create(id, mode));
      }
      if mode != "predictive" && mode != "preview" && mode != "progressive" && mode != "power" {
        return Some(InvalidDialingMode);
      }
      campaigns := campaigns[id := Campaign(Draft, 0, 0, 0, 0, 3)];
      return None;
    }

    /** The pending count of CountByStatus, as far as Start needs it. */
    method CountPending(id: int) returns (pending: nat)
      ensures pending > 0 <==> HasPending(View(), id)
    {
      pending := 0;
      var ids := cases.Keys;
      while ids != {}
        invariant ids <= cases.Keys
        invariant pending > 0 <==> exists i :: i in cases && i !in ids && cases[i].campaignId == id && cases[i].status == Pending
        decreases ids
      {
        var i := Choose(ids);
        if cases[i].campaignId == id && cases[i].status == Pending {
          pending := pending + 1;
        }
        ids := ids - {i};
      }
    }

    method StartCampaign(id: int) returns (err: Option<Error>)
      modifies this
      ensures (View(), err) == Do(old(View()), Start(id))
      ensures old(Ledgers(View())) && !Spoils(old(View()), Start(id)) ==> Ledgers(View())
    {
      ghost var before := View();
      if Ledgers(before) {
        StepKeepsLedgersIff(before, Start(id));
      }
      if id !in campaigns {
        return Some(CampaignNotFound);
      }
      var c := campaigns[id];
      if c.status != Draft && c.status != Paused {
        return Some(CampaignNotDraft);
      }
      var pending := CountPending(id);
      if pending == 0 {
        return Some(CampaignNoCases);
      }
      campaigns := campaigns[id := c.(status := Running)];
      return None;
    }

    method PauseCampaign(id: int) returns (err: Option<Error>)
      modifies this
      ensures (View(), err) == Do(old(View()), Pause(id))
      ensures old(Ledgers(View())) && !Spoils(old(View()), Pause(id)) ==> Ledgers(View())
    {
      ghost var before := View();
      if Ledgers(before) {
        StepKeepsLedgersIff(before, Pause(id));
      }
      if id !in campaigns {
        return Some(CampaignNotFound);
      }
      if campaigns[id].status != Running {
        return Some(CampaignNotRunning);
      }
      campaigns := campaigns[id := campaigns[id].(status := Paused)];
      return None;
    }

    method AbortCampaign(id: int) returns (err: Option<Error>)
      modifies this
      ensures (View(), err) == Do(old(View()), Abort(id))
      ensures old(Ledgers(View())) && !Spoils(old(View()), Abort(id)) ==> Ledgers(View())
    {
      ghost var before := View();
      if Ledgers(before) {
        StepKeepsLedgersIff(before, Abort(id));
      }
      if id !in campaigns {
        return Some(CampaignNotFound);
      }
      var c := campaigns[id];
      if c.status != Running && c.status != Paused {
        return Some(CampaignNotRunning);
      }
      campaigns := campaigns[id := c.(status := Aborted)];
      return None;
    }

    /** ImportCases: ids are the generator's ids for the numbers that become cases. */
    method ImportCases(id: int, inputs: seq<string>, blocked: set<string>, ids: seq<int>) returns (err: Option<Error>)
      requires FreshIds(View(), Import(id, Dialable(inputs, blocked), ids))
      modifies this
      ensures (View(), err) == Do(old(View()), Import(id, Dialable(inputs, blocked), ids))
      ensures old(Ledgers(View())) ==> Ledgers(View())
    {
      ghost var before := View();
      if Ledgers(before) {
        StepKeepsLedgersIff(before, Import(id, Dialable(inputs, blocked), ids));
      }
      if id !in campaigns {
        return Some(CampaignNotFound);
      }
      var c := campaigns[id];
      var valid: seq<string> := [];
      for k := 0 to |inputs|
        invariant valid == Dialable(inputs[..k], blocked)
      {
        assert inputs[..k + 1][..k] == inputs[..k];
        if inputs[k] == "" || inputs[k] in blocked {
          continue;
        }
        valid := valid + [inputs[k]];
      }
      assert inputs[..|inputs|] == inputs;
      if |valid| > 0 {
        BulkCreate(id, valid, ids);
        campaigns := campaigns[id := c.(total := c.total + |valid|)];
      } else {
        assert campaigns[id := c.(total := c.total + 0)] == campaigns;
      }
      return None;
    }

    method BulkCreate(id: int, phones: seq<string>, ids: seq<int>)
      requires |phones| <= |ids|
      modifies this`cases
      ensures cases == AddCases(old(cases), id, phones, ids)
    {
      for k := 0 to |phones|
        invariant cases == AddCases(old(cases), id, phones[..k], ids)
      {
        assert phones[..k + 1][..k] == phones[..k];
        cases := cases[ids[k] := Case(id, phones[k], Pending, 0, 0)];
      }
      assert phones[..|phones|] == phones;
    }

    method MarkCaseCompleted(i: int, durationSec: int) returns (err: Option<Error>)
      modifies this
      ensures (View(), err) == Do(old(View()), MarkCompleted(i, durationSec))
      ensures old(Ledgers(View())) && !Spoils(old(View()), MarkCompleted(i, durationSec)) ==> Ledgers(View())
    {
      ghost var before := View();
      if Ledgers(before) {
        StepKeepsLedgersIff(before, MarkCompleted(i, durationSec));
      }
      if i !in cases {
        return Some(CaseNotFound);
      }
      var cs := cases[i];
      if cs.status == CaseCompleted {
        return None;
      }
      cases := cases[i := cs.(status := CaseCompleted, durationSec := durationSec, attempts := cs.attempts + 1)];
      if cs.campaignId in campaigns {
        var c := campaigns[cs.campaignId];
        c := c.(completed := c.completed + 1);
        if durationSec > 0 {
          c := c.(success := c.success + 1);
        }
        campaigns := campaigns[cs.campaignId := AutoComplete(c)];
      }
      return None;
    }

    method MarkCaseFailed(i: int) returns (err: Option<Error>)
      modifies this
      ensures (View(), err) == Do(old(View()), MarkFailed(i))
      ensures old(Ledgers(View())) && !Spoils(old(View()), MarkFailed(i)) ==> Ledgers(View())
    {
      ghost var before := View();
      if Ledgers(before) {
        StepKeepsLedgersIff(before, MarkFailed(i));
      }
      if i !in cases {
        return Some(CaseNotFound);
      }
      var cs := cases[i];
      cs := cs.(attempts := cs.attempts + 1);
      var maxRetries := 3;
      if cs.campaignId in campaigns {
        maxRetries := campaigns[cs.campaignId].maxRetries;
      }
      if cs.attempts >= maxRetries {
        cs := cs.(status := CaseFailed);
        if cs.campaignId in campaigns {
          var c := campaigns[cs.campaignId];
          c := c.(completed := c.completed + 1, failed := c.failed + 1);
          campaigns := campaigns[cs.campaignId := AutoComplete(c)];
        }
      } else {
        cs := cs.(status := Pending);
      }
      cases := cases[i := cs];
      return None;
    }

    method SkipCase(id: int, i: int) returns (err: Option<Error>)
      modifies this
      ensures (View(), err) == Do(old(View()), Skip(id, i))
      ensures old(Ledgers(View())) && !Spoils(old(View()), Skip(id, i)) ==> Ledgers(View())
    {
      ghost var before := View();
      if Ledgers(before) {
        StepKeepsLedgersIff(before, Skip(id, i));
      }
      if i !in cases || cases[i].campaignId != id {
        return Some(CaseNotFound);
      }
      cases := cases[i := cases[i].(status := CaseSkipped)];
      if id in campaigns {
        var c := campaigns[id];
        c := c.(completed := c.completed + 1, failed := c.failed + 1);
        campaigns := campaigns[id := AutoComplete(c)];
      }
      return None;
    }

    method DialCase(id: int, i: int) returns (err: Option<Error>)
      modifies this
      ensures (View(), err) == Do(old(View()), Dial(id, i))
      ensures old(Ledgers(View())) && !Spoils(old(View()), Dial(id, i)) ==> Ledgers(View())
    {
      ghost var before := View();
      if Ledgers(before) {
        StepKeepsLedgersIff(before, Dial(id, i));
      }
      if i !in cases || cases[i].campaignId != id {
        return Some(CaseNotFound);
      }
      cases := cases[i := cases[i].(status := Dialing, attempts := cases[i].attempts + 1)];
      return None;
    }
  }
}
