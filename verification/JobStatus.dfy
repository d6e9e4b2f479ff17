/**
 The life-cycle of a post job: the constant transition table and the two
 membership tests built on it.
 */
module JobStatus {

  datatype Status =
    | New
    | ScoringQueued
    | Scoring
    | WaitingAI
    | Scored
    | WaitingFirstApproval
    | VariantsQueued
    | GeneratingVariants
    | WaitingVariantApproval
    | ReadyToPublish
    | Scheduled
    | Approved
    | Publishing
    | Published
    | Skipped
    | Failed

  /**
   The transition table: the statuses a job may move to from each status. A no-op move is
   never allowed, so it cannot repeat a side effect.
   */
  predicate CanTransition(from: Status, to: Status) {
    match from
    case New => to == ScoringQueued || to == Failed
    case ScoringQueued => to == Scoring || to == Failed
    case Scoring => to == WaitingAI || to == Scored || to == Failed
    case WaitingAI => to == ScoringQueued || to == VariantsQueued || to == Failed || to == Skipped
    case Scored => to == WaitingFirstApproval || to == Skipped || to == Failed
    case WaitingFirstApproval => to == VariantsQueued || to == Skipped || to == Failed
    case VariantsQueued => to == GeneratingVariants || to == Skipped || to == Failed
    case GeneratingVariants => to == WaitingVariantApproval || to == WaitingAI || to == Failed
    case WaitingVariantApproval => to == ReadyToPublish || to == VariantsQueued || to == Skipped || to == Failed
    case ReadyToPublish => to == Scheduled || to == Approved || to == VariantsQueued || to == Skipped || to == Failed
    case Scheduled => to == Approved || to == ReadyToPublish || to == Skipped || to == Failed
    case Approved => to == Publishing || to == Failed
    case Publishing => to == Published || to == Failed
    case Published => false
    case Skipped => false
    case Failed => false
  }

  /** The table read backwards: the statuses each status can be entered from. */
  predicate EnteredFrom(to: Status, from: Status) {
    match to
    case New => false
    case ScoringQueued => from == New || from == WaitingAI
    case Scoring => from == ScoringQueued
    case WaitingAI => from == Scoring || from == GeneratingVariants
    case Scored => from == Scoring
    case WaitingFirstApproval => from == Scored
    case VariantsQueued =>
      from == WaitingAI || from == WaitingFirstApproval || from == WaitingVariantApproval || from == ReadyToPublish
    case GeneratingVariants => from == VariantsQueued
    case WaitingVariantApproval => from == GeneratingVariants
    case ReadyToPublish => from == WaitingVariantApproval || from == Scheduled
    case Scheduled => from == ReadyToPublish
    case Approved => from == ReadyToPublish || from == Scheduled
    case Publishing => from == Approved
    case Published => from == Publishing
    case Skipped =>
      from == WaitingAI || from == Scored || from == WaitingFirstApproval || from == VariantsQueued
      || from == WaitingVariantApproval || from == ReadyToPublish || from == Scheduled
    case Failed => !IsTerminal(from)
  }

  lemma EdgesInto(from: Status, to: Status)
    ensures CanTransition(from, to) <==> EnteredFrom(to, from)
  {
    hide CanTransition, EnteredFrom;
    AutomaticEdges(from, to);
    ReviewedEdges(from, to);
  }

  /** The statuses in which no operator has reviewed a variant yet. */
  predicate BeforeReview(s: Status) {
    s == New || s == ScoringQueued || s == Scoring || s == WaitingAI || s == Scored || s == WaitingFirstApproval
    || s == VariantsQueued || s == GeneratingVariants
  }

  lemma AutomaticEdges(from: Status, to: Status)
    ensures BeforeReview(from) ==> (CanTransition(from, to) <==> EnteredFrom(to, from))
  {
    match from
    case New =>
    case ScoringQueued =>
    case Scoring =>
    case WaitingAI =>
    case Scored =>
    case WaitingFirstApproval =>
    case VariantsQueued =>
    case GeneratingVariants =>
    case _ =>
  }

  lemma ReviewedEdges(from: Status, to: Status)
    ensures !BeforeReview(from) ==> (CanTransition(from, to) <==> EnteredFrom(to, from))
  {
    match from
    case WaitingVariantApproval =>
    case ReadyToPublish =>
    case Scheduled =>
    case Approved =>
    case Publishing =>
    case Published =>
    case Skipped =>
    case Failed =>
    case _ =>
  }

  predicate IsTerminal(s: Status) {
    s == Published || s == Skipped || s == Failed
  }

  /** A walk along the table. */
  ghost predicate Walk(path: seq<Status>) {
    forall i :: 0 <= i < |path| - 1 ==> CanTransition(path[i], path[i + 1])
  }

  /** Statuses from which nothing that precedes the final approval is reachable. */
  predicate Sealed(s: Status) {
    s == Approved || s == Publishing || IsTerminal(s)
  }

  /** The terminal statuses are exactly the dead ends of the table. */
  lemma TerminalIffDeadEnd(s: Status)
    ensures IsTerminal(s) <==> forall t :: !CanTransition(s, t)
  {
    if !IsTerminal(s) {
      assert CanTransition(s, if s == Publishing then Published
                              else if s == WaitingAI || s == ScoringQueued || s == New then Failed
                              else if CanTransition(s, Skipped) then Skipped
                              else Failed);
    }
  }

  /** Once a walk enters the sealed statuses it never leaves them. */
  lemma {:induction false} SealedForGood(path: seq<Status>, i: nat, k: nat)
    requires Walk(path)
    requires i <= k < |path|
    requires Sealed(path[i])
    ensures Sealed(path[k])
    decreases k - i
  {
    if i < k {
      assert CanTransition(path[i], path[i + 1]);
      SealedForGood(path, i + 1, k);
    }
  }

  lemma InnerNotTerminal(path: seq<Status>, i: nat)
    requires Walk(path)
    requires i + 1 < |path|
    ensures !IsTerminal(path[i])
  {
    assert CanTransition(path[i], path[i + 1]);
  }

  /**
   PUBLISHING is a point of no return: no walk visits it twice. This is what makes
   a successful claim of PUBLISHING a licence to call the external publisher.
   */
  lemma PublishingVisitedOnce(path: seq<Status>, i: nat, k: nat)
    requires Walk(path)
    requires i < k < |path|
    requires path[i] == Publishing
    ensures k == i + 1 && (path[k] == Published || path[k] == Failed)
  {
    assert CanTransition(path[i], path[i + 1]);
    if i + 1 < k {
      InnerNotTerminal(path, i + 1);
      assert false;
    }
  }
}
