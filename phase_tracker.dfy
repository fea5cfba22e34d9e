/** The business phase tracker: milestones grouped by phase, the current phase
    (the first of idea, launch, growth, scale with an open milestone), per-phase
    and overall percentages, and the milestone toggle that only takes effect once
    the store accepted it. */
module PhaseTracker {
  import opened Common

  datatype Phase = Idea | Launch | Growth | Scale
  {
    function Key(): string
    {
      match this
      case Idea => "idea"
      case Launch => "launch"
      case Growth => "growth"
      case Scale => "scale"
    }

    /** Position in the scan order. */
    function Rank(): nat
    {
      match this
      case Idea => 0
      case Launch => 1
      case Growth => 2
      case Scale => 3
    }
  }

  const PhaseOrder: seq<Phase> := [Idea, Launch, Growth, Scale]

  lemma PhaseOrderRanks()
    ensures forall k :: 0 <= k < |PhaseOrder| ==> PhaseOrder[k].Rank() == k
    ensures forall p: Phase :: PhaseOrder[p.Rank()] == p
  {
  }

  /** A milestone row. The phase is free text in the store, so it may name no known phase. */
  datatype Milestone = Milestone(id: string, phase: string, name: string, description: string,
                                 completed: bool, orderIndex: int)

  /** `milestones.filter(m => m.phase === key)`. */
  function InPhase(ms: seq<Milestone>, key: string): (r: seq<Milestone>)
    ensures |r| <= |ms|
    ensures forall m :: m in r <==> m in ms && m.phase == key
  {
    if ms == [] then []
    else (if ms[0].phase == key then [ms[0]] else []) + InPhase(ms[1..], key)
  }

  function CompletedCount(ms: seq<Milestone>): (n: nat)
    ensures n <= |ms|
  {
    if ms == [] then 0
    else (if ms[0].completed then 1 else 0) + CompletedCount(ms[1..])
  }

  /** The count falls short of the length exactly when some milestone is open. */
  lemma {:induction false} CompletedCountShort(ms: seq<Milestone>)
    ensures CompletedCount(ms) < |ms| <==> exists i :: 0 <= i < |ms| && !ms[i].completed
  {
    if ms != [] {
      CompletedCountShort(ms[1..]);
      if !ms[0].completed {
        assert !ms[0].completed;
      } else if exists i :: 0 <= i < |ms| && !ms[i].completed {
        var i :| 0 <= i < |ms| && !ms[i].completed;
        assert ms[1..][i - 1] == ms[i];
      }
    }
  }

  /** The loop's test: fewer completed milestones in the phase than milestones. */
  predicate HasOpen(ms: seq<Milestone>, p: Phase)
  {
    CompletedCount(InPhase(ms, p.Key())) < |InPhase(ms, p.Key())|
  }

  /** The count test means: some milestone of that phase is not completed. A phase with
      no milestones is therefore never open. */
  lemma HasOpenMeans(ms: seq<Milestone>, p: Phase)
    ensures HasOpen(ms, p) <==> exists m :: m in ms && m.phase == p.Key() && !m.completed
  {
    var f := InPhase(ms, p.Key());
    CompletedCountShort(f);
    if HasOpen(ms, p) {
      var i :| 0 <= i < |f| && !f[i].completed;
      assert f[i] in f;
    } else {
      forall m | m in ms && m.phase == p.Key() ensures m.completed {
        assert m in f;
      }
    }
  }

  /** The first phase in scan order with an open milestone; "scale" when there is none. */
  function CurrentPhase(ms: seq<Milestone>): (r: Phase)
    ensures r == Scale || HasOpen(ms, r)
    ensures forall q: Phase :: q.Rank() < r.Rank() ==> !HasOpen(ms, q)
  {
    if HasOpen(ms, Idea) then Idea
    else if HasOpen(ms, Launch) then Launch
    else if HasOpen(ms, Growth) then Growth
    else Scale
  }

  /** The two characterising clauses fix the phase: any phase meeting them is the current one. */
  lemma CurrentPhaseUnique(ms: seq<Milestone>, p: Phase)
    requires p == Scale || HasOpen(ms, p)
    requires forall q: Phase :: q.Rank() < p.Rank() ==> !HasOpen(ms, q)
    ensures p == CurrentPhase(ms)
  {
    var r := CurrentPhase(ms);
    if p.Rank() < r.Rank() {
      assert !HasOpen(ms, p);
    } else if r.Rank() < p.Rank() {
      assert !HasOpen(ms, r);
    }
  }

  /** With every milestone completed, or with none at all, the tracker reports "scale". */
  lemma AllCompleteMeansScale(ms: seq<Milestone>)
    requires forall i :: 0 <= i < |ms| ==> ms[i].completed
    ensures CurrentPhase(ms) == Scale
  {
    forall p: Phase ensures !HasOpen(ms, p) {
      HasOpenMeans(ms, p);
    }
  }

  /** A milestone whose phase names none of the four never changes the current phase. */
  lemma {:induction false} UnknownPhaseIgnored(ms: seq<Milestone>, m: Milestone)
    requires forall p: Phase :: m.phase != p.Key()
    ensures CurrentPhase(ms + [m]) == CurrentPhase(ms)
  {
    forall p: Phase ensures HasOpen(ms + [m], p) <==> HasOpen(ms, p) {
      HasOpenMeans(ms, p);
      HasOpenMeans(ms + [m], p);
      forall x | x in ms + [m] && x.phase == p.Key() ensures x in ms { }
    }
  }

  /** `calculatePhaseProgress`: 0 for an empty phase, else the rounded completion percentage. */
  function PhaseProgress(ms: seq<Milestone>, key: string): (r: int)
    ensures 0 <= r <= 100
    ensures |InPhase(ms, key)| == 0 ==> r == 0
    ensures |InPhase(ms, key)| > 0 ==>
              var f := InPhase(ms, key);
              r as real - 0.5 <= CompletedCount(f) as real / |f| as real * 100.0 < r as real + 0.5
    ensures CompletedCount(InPhase(ms, key)) == 0 ==> r == 0
    ensures |InPhase(ms, key)| > 0 && CompletedCount(InPhase(ms, key)) == |InPhase(ms, key)| ==> r == 100
  {
    var f := InPhase(ms, key);
    if |f| == 0 then 0 else RoundedPercent(CompletedCount(f), |f|)
  }

  /** `overallProgress` divides without a guard: `None` stands for the NaN of an empty list. */
  function OverallProgress(ms: seq<Milestone>): (r: Option<int>)
    ensures r.None? <==> |ms| == 0
    ensures r.Some? ==> 0 <= r.value <= 100
    ensures r.Some? ==> (r.value == 100 <== CompletedCount(ms) == |ms|)
  {
    if |ms| == 0 then None else Some(RoundedPercent(CompletedCount(ms), |ms|))
  }

  /** The "Next Steps" panel: `overallProgress < 100`, false for NaN. */
  predicate ShowsNextSteps(ms: seq<Milestone>)
  {
    OverallProgress(ms).Some? && OverallProgress(ms).value < 100
  }

  /** The congratulations panel: `overallProgress === 100`, false for NaN. */
  predicate ShowsCongratulations(ms: seq<Milestone>)
  {
    OverallProgress(ms).Some? && OverallProgress(ms).value == 100
  }

  /** With no milestones neither panel shows; otherwise exactly one does. */
  lemma PanelsExclusive(ms: seq<Milestone>)
    ensures |ms| == 0 ==> !ShowsNextSteps(ms) && !ShowsCongratulations(ms)
    ensures |ms| > 0 ==> ShowsNextSteps(ms) != ShowsCongratulations(ms)
  {
  }

  /** The local update: only the `completed` flag of milestones with that id changes. */
  function SetCompleted(ms: seq<Milestone>, id: string, completed: bool): (r: seq<Milestone>)
    ensures |r| == |ms|
    ensures forall i :: 0 <= i < |ms| ==>
              r[i] == (if ms[i].id == id then ms[i].(completed := completed) else ms[i])
  {
    if ms == [] then []
    else [if ms[0].id == id then ms[0].(completed := completed) else ms[0]] + SetCompleted(ms[1..], id, completed)
  }

  /** What the widget sends to the store: the flag, and a completion time only when completing. */
  datatype StoreUpdate = StoreUpdate(id: string, completed: bool, completedDate: Option<string>)

  function UpdateFor(id: string, completed: bool, now: string): (u: StoreUpdate)
    ensures u.id == id && u.completed == completed
    ensures u.completedDate.Some? <==> completed
    ensures completed ==> u.completedDate == Some(now)
  {
    StoreUpdate(id, completed, if completed then Some(now) else None)
  }

  /** The outcome of the milestone query: rows (possibly absent), or an error. */
  datatype LoadResult = Rows(data: Option<seq<Milestone>>) | LoadError

  class Tracker {
    var milestones: seq<Milestone>
    var currentPhase: Phase
    var isLoading: bool

    constructor ()
      ensures milestones == [] && currentPhase == Idea && isLoading
    {
      milestones := [];
      currentPhase := Idea;
      isLoading := true;
    }

    /** The scan over idea, launch, growth, scale with its early return. */
    method DetermineCurrentPhase(all: seq<Milestone>)
      modifies this
      ensures currentPhase == CurrentPhase(all)
      ensures milestones == old(milestones) && isLoading == old(isLoading)
    {
      PhaseOrderRanks();
      var i := 0;
      while i < |PhaseOrder|
        invariant 0 <= i <= |PhaseOrder|
        invariant forall k :: 0 <= k < i ==> !HasOpen(all, PhaseOrder[k])
        invariant milestones == old(milestones) && isLoading == old(isLoading)
      {
        var phase := PhaseOrder[i];
        var phaseMilestones := InPhase(all, phase.Key());
        var completed := CompletedCount(phaseMilestones);
        if completed < |phaseMilestones| {
          currentPhase := phase;
          CurrentPhaseUnique(all, phase);
          return;
        }
        i := i + 1;
      }
      currentPhase := Scale;
      CurrentPhaseUnique(all, Scale);
    }

    /** Loading: rows (or `[]` when the query returns none) replace the list and fix the
        phase; an error leaves both as they were. Loading ends either way. */
    method Load(result: LoadResult)
      modifies this
      ensures !isLoading
      ensures result.Rows? ==> milestones == OrEmpty(result.data) && currentPhase == CurrentPhase(milestones)
      ensures result.LoadError? ==> milestones == old(milestones) && currentPhase == old(currentPhase)
    {
      if result.Rows? {
        var data := OrEmpty(result.data);
        milestones := data;
        DetermineCurrentPhase(data);
      }
      isLoading := false;
    }

    /** Toggling a milestone: the update is sent; only when the store accepts it do the
        list and the phase change. Returns the update that was sent. */
    method ToggleMilestone(id: string, completed: bool, storeAccepted: bool, now: string)
      returns (sent: StoreUpdate)
      modifies this
      ensures sent == UpdateFor(id, completed, now)
      ensures storeAccepted ==>
                milestones == SetCompleted(old(milestones), id, completed) && currentPhase == CurrentPhase(milestones)
      ensures !storeAccepted ==> milestones == old(milestones) && currentPhase == old(currentPhase)
      ensures isLoading == old(isLoading)
    {
      sent := UpdateFor(id, completed, now);
      if storeAccepted {
        var updated := SetCompleted(milestones, id, completed);
        milestones := updated;
        DetermineCurrentPhase(updated);
      }
    }
  }
}
