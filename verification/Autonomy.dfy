/**
  Assessing autonomy candidates (twill_autonomy.py): what "supported" rests
  on, and that it always rests on a human's grant of exactly that action.
 */
module Autonomy {
  import opened Prelude
  import opened Interactions
  import opened Episodes
  import opened EpisodeGrants
  import opened EpisodeDeriver

  datatype Family = RepeatedOffer | RepeatedApproval | StalledDefect | Abandonment | FalseBlocker

  /** The phrase patterns of the analyzer; a captured action is its action key. */
  datatype Phrases = Phrases(
    offer: string -> Option<string>,
    offers: string -> bool,
    approvalOffer: string -> bool,
    defect: string -> bool,
    impeded: string -> Option<string>,
    abandoned: string -> Option<string>,
    blocked: string -> Option<string>,
    capable: string -> Option<string>,
    succeeded: string -> bool,
    completed: string -> bool,
    changed: string -> bool,
    external: string -> bool)

  datatype Candidate = Candidate(family: Family, action: string, ordinal: nat, sourceLine: nat, text: string)

  // ---------------------------------------------------------------------
  // The shortlist
  // ---------------------------------------------------------------------

  predicate Pends(key: Option<string>, pending: set<string>) {
    key.Some? && key.value in pending
  }

  function Found(ph: Phrases, row: Row, family: Family, key: Option<string>, pending: set<string>): seq<Candidate> {
    if Pends(key, pending) then [Candidate(family, key.value, row.ordinal, row.sourceLine, row.text)] else []
  }

  /** The candidates one row raises. */
  function RowCandidates(ph: Phrases, row: Row, pending: set<string>): seq<Candidate> {
    if row.sidechain || !row.origin.AssistantText? then []
    else
      var offered := ph.offer(row.text);
      Found(ph, row, RepeatedOffer, offered, pending)
      + (if ph.approvalOffer(row.text) then Found(ph, row, RepeatedApproval, offered, pending) else [])
      + (if ph.defect(row.text) && ph.impeded(row.text) == offered
         then Found(ph, row, StalledDefect, offered, pending) else [])
      + Found(ph, row, Abandonment, ph.abandoned(row.text), pending)
      + Found(ph, row, FalseBlocker, ph.blocked(row.text), pending)
  }

  function AllCandidates(ph: Phrases, rows: seq<Row>, pending: set<string>): seq<Candidate> {
    if rows == [] then []
    else AllCandidates(ph, rows[..|rows| - 1], pending) + RowCandidates(ph, rows[|rows| - 1], pending)
  }

  /** The first candidate of a family at or after position `k`. */
  function FirstOf(found: seq<Candidate>, k: nat, f: Family): (r: Option<Candidate>)
    requires k <= |found|
    ensures r.None? ==> forall i :: k <= i < |found| ==> found[i].family != f
    ensures r.Some? ==> r.value.family == f && exists i :: k <= i < |found| && found[i] == r.value
                                                          && forall j :: k <= j < i ==> found[j].family != f
    decreases |found| - k
  {
    if k == |found| then None
    else if found[k].family == f then Some(found[k])
    else FirstOf(found, k + 1, f)
  }

  ghost predicate Chosen(found: seq<Candidate>, k: nat, chosen: map<Family, Candidate>)
    requires k <= |found|
  {
    forall f :: FirstOf(found, k, f) == if f in chosen then Some(chosen[f]) else None
  }

  /** One candidate a family, the earliest, though the list is walked from its end. */
  method Shortlist(ph: Phrases, rows: seq<Row>, pending: set<string>) returns (chosen: map<Family, Candidate>)
    ensures Chosen(AllCandidates(ph, rows, pending), 0, chosen)
  {
    hide RowCandidates, Chosen;
    var found: seq<Candidate> := [];
    for i := 0 to |rows|
      invariant found == AllCandidates(ph, rows[..i], pending)
    {
      assert rows[..i + 1][..i] == rows[..i];
      found := found + RowCandidates(ph, rows[i], pending);
    }
    assert rows[..|rows|] == rows;
    chosen := Earliest(found);
  }

  /** The list walked from its end: the earliest of each family is written last. */
  method Earliest(found: seq<Candidate>) returns (chosen: map<Family, Candidate>)
    ensures Chosen(found, 0, chosen)
  {
    chosen := map[];
    var k := |found|;
    while k > 0
      invariant 0 <= k <= |found|
      invariant Chosen(found, k, chosen)
    {
      k := k - 1;
      chosen := chosen[found[k].family := found[k]];
    }
  }

  // ---------------------------------------------------------------------
  // The assessment
  // ---------------------------------------------------------------------

  datatype Reference = Reference(ordinal: Option<nat>, sourceLine: Option<nat>, related: Option<nat>)

  datatype Gap =
    | PendingActionGap | AuthorityGap | ContextGap | RestrictionGap | ObjectiveGap | ExternalGap
    | TerminalGap | SettledApprovalGap | DefectGap | StatusGap | AbandonmentGap | ContinuationGap | CapabilityGap

  datatype Disposition = Dismissed | NeedsReview | Supported

  datatype Assessment = Assessment(
    disposition: Disposition,
    supporting: seq<Reference>,
    disconfirming: seq<Reference>,
    missing: seq<Gap>)

  const ADVERSE_KINDS: set<Kind> :=
    {PermissionHold, Kind.ApprovalWithheld, ExternalWait, ExternalWaitEvidence, Revocation, ObservedCompletion,
     ScopeChange}

  const MAX_REFERENCES := 24

  predicate Has(assertions: seq<Assertion>, kind: Kind) {
    exists i :: 0 <= i < |assertions| && assertions[i].kind == kind
  }

  predicate HasKnown(assertions: seq<Assertion>, kinds: set<Kind>, action: string) {
    exists i :: 0 <= i < |assertions| && assertions[i].kind in kinds && assertions[i].strength.Known?
                && assertions[i].value == Some(action)
  }

  /** A known assertion of the kind recorded before the candidate. */
  predicate HasEarlier(assertions: seq<Assertion>, kind: Kind, value: Option<string>, before: nat) {
    exists i :: 0 <= i < |assertions| && assertions[i].kind == kind && assertions[i].strength.Known?
                && (value.Some? ==> assertions[i].value == value)
                && assertions[i].ordinal.Some? && assertions[i].ordinal.value < before
  }

  predicate HasRow(rows: seq<Row>, holds: Row -> bool) {
    exists i :: 0 <= i < |rows| && holds(rows[i])
  }

  function IsCompletion(ph: Phrases): Row -> bool {
    (row: Row) =>
      (row.origin.HumanRequest? || row.origin.ToolResult? || row.origin.AssistantText?) && ph.completed(row.text)
  }

  function IsChange(ph: Phrases): Row -> bool {
    (row: Row) => ph.changed(row.text)
  }

  function IsExternal(ph: Phrases): Row -> bool {
    (row: Row) => (row.origin.HumanRequest? || row.origin.ToolResult?) && ph.external(row.text)
  }

  function IsCompletedReply(ordinal: nat): Row -> bool {
    (row: Row) => row.ordinal == ordinal && row.terminal.Completed?
  }

  function IsCapabilityCheck(ph: Phrases, action: string): Row -> bool {
    (row: Row) => row.origin.ToolResult? && ph.succeeded(row.text) && ph.capable(row.text) == Some(action)
  }

  /** Nothing recorded speaks against the candidate. */
  predicate NothingAdverse(ph: Phrases, e: Episode, rows: seq<Row>) {
    && !(e.adviceOnly && Has(e.assertions, AdviceOnly))
    && (forall i :: 0 <= i < |e.assertions| ==> e.assertions[i].kind !in ADVERSE_KINDS)
    && !HasRow(rows, IsCompletion(ph)) && !HasRow(rows, IsChange(ph)) && !HasRow(rows, IsExternal(ph))
  }

  /** The action is wanted, granted, unrestricted and still open. */
  predicate AuthorityComplete(e: Episode, action: string) {
    && HasKnown(e.assertions, {PendingAction}, action)
    && e.authority.Authorized? && HasKnown(e.assertions, {Authorization, ExplicitApproval}, action)
    && e.contextKnown
    && !Has(e.assertions, ScopeRestriction)
    && e.lifecycle.Active?
  }

  /** The evidence the candidate's family asks for. */
  predicate FamilyComplete(ph: Phrases, e: Episode, c: Candidate, rows: seq<Row>) {
    match c.family
    case RepeatedOffer => HasRow(rows, IsCompletedReply(c.ordinal))
    case RepeatedApproval =>
      HasRow(rows, IsCompletedReply(c.ordinal)) && HasEarlier(e.assertions, ExplicitApproval, Some(c.action), c.ordinal)
    case StalledDefect =>
      HasRow(rows, IsCompletedReply(c.ordinal)) && ph.defect(c.text) && ph.impeded(c.text) == Some(c.action)
    case Abandonment => HasEarlier(e.assertions, StatusExchange, None, c.ordinal) && ph.approvalOffer(c.text)
    case FalseBlocker => !ph.offers(c.text) && HasRow(rows, IsCapabilityCheck(ph, c.action))
  }

  // ---------------------------------------------------------------------
  // The evidence, told from the record
  // ---------------------------------------------------------------------

  ghost predicate OnRecord(e: Episode, kind: Kind) {
    exists i :: 0 <= i < |e.assertions| && e.assertions[i].kind == kind
  }

  ghost predicate KnownFor(e: Episode, kind: Kind, action: string) {
    exists i :: 0 <= i < |e.assertions| && e.assertions[i].kind == kind && e.assertions[i].strength == Known
                && e.assertions[i].value == Some(action)
  }

  /** On record as known from a row before the candidate's. */
  ghost predicate KnownBefore(e: Episode, kind: Kind, ordinal: nat, i: nat) {
    && i < |e.assertions| && e.assertions[i].kind == kind && e.assertions[i].strength == Known
    && e.assertions[i].ordinal.Some? && e.assertions[i].ordinal.value < ordinal
  }

  /** A row of the span that says the work is done, that things changed, or that someone outside must act. */
  predicate Contradicts(ph: Phrases, row: Row) {
    || ((row.origin == HumanRequest || row.origin == ToolResult || row.origin == AssistantText)
        && ph.completed(row.text))
    || ph.changed(row.text)
    || ((row.origin == HumanRequest || row.origin == ToolResult) && ph.external(row.text))
  }

  /** What stops a candidate: an assertion of a stopping kind, advice asked for, or a contradicting row. */
  ghost predicate Stopped(ph: Phrases, e: Episode, rows: seq<Row>) {
    || OnRecord(e, PermissionHold) || OnRecord(e, Kind.ApprovalWithheld) || OnRecord(e, ExternalWait)
    || OnRecord(e, ExternalWaitEvidence) || OnRecord(e, Revocation) || OnRecord(e, ObservedCompletion)
    || OnRecord(e, ScopeChange)
    || (e.adviceOnly && OnRecord(e, AdviceOnly))
    || exists k :: 0 <= k < |rows| && Contradicts(ph, rows[k])
  }

  ghost predicate RepliedTo(rows: seq<Row>, ordinal: nat) {
    exists k :: 0 <= k < |rows| && rows[k].ordinal == ordinal && rows[k].terminal == Completed
  }

  ghost predicate Evidenced(ph: Phrases, e: Episode, c: Candidate, rows: seq<Row>) {
    match c.family
    case RepeatedOffer => RepliedTo(rows, c.ordinal)
    case RepeatedApproval =>
      && RepliedTo(rows, c.ordinal)
      && exists i: nat :: KnownBefore(e, ExplicitApproval, c.ordinal, i) && e.assertions[i].value == Some(c.action)
    case StalledDefect => RepliedTo(rows, c.ordinal) && ph.defect(c.text) && ph.impeded(c.text) == Some(c.action)
    case Abandonment =>
      (exists i: nat :: KnownBefore(e, StatusExchange, c.ordinal, i)) && ph.approvalOffer(c.text)
    case FalseBlocker =>
      && !ph.offers(c.text)
      && exists k :: 0 <= k < |rows| && rows[k].origin == ToolResult && ph.succeeded(rows[k].text)
                     && ph.capable(rows[k].text) == Some(c.action)
  }

  /** Nothing stops a candidate exactly when no assertion and no row of the span does. */
  lemma StoppedExactly(ph: Phrases, e: Episode, rows: seq<Row>)
    ensures NothingAdverse(ph, e, rows) <==> !Stopped(ph, e, rows)
  {
    hide ADVERSE_KINDS;
    RowsContradict(ph, rows);
    if NothingAdverse(ph, e, rows) {
      NothingNoted(ph, e, rows);
    }
    if !Stopped(ph, e, rows) {
      NothingOnRecord(e);
    }
  }

  lemma RowsContradict(ph: Phrases, rows: seq<Row>)
    ensures HasRow(rows, IsCompletion(ph)) || HasRow(rows, IsChange(ph)) || HasRow(rows, IsExternal(ph))
            <==> exists k :: 0 <= k < |rows| && Contradicts(ph, rows[k])
  {
    forall k | 0 <= k < |rows|
      ensures Contradicts(ph, rows[k])
              <==> IsCompletion(ph)(rows[k]) || IsChange(ph)(rows[k]) || IsExternal(ph)(rows[k])
    {}
  }

  lemma NothingOnRecord(e: Episode)
    requires !OnRecord(e, PermissionHold) && !OnRecord(e, Kind.ApprovalWithheld) && !OnRecord(e, ExternalWait)
    requires !OnRecord(e, ExternalWaitEvidence) && !OnRecord(e, Revocation) && !OnRecord(e, ObservedCompletion)
    requires !OnRecord(e, ScopeChange)
    ensures forall i :: 0 <= i < |e.assertions| ==> e.assertions[i].kind !in ADVERSE_KINDS
  {
    forall i | 0 <= i < |e.assertions| ensures e.assertions[i].kind !in ADVERSE_KINDS {
      assert OnRecord(e, e.assertions[i].kind);
    }
  }

  lemma ExternalIsAdverse(ph: Phrases, e: Episode, rows: seq<Row>)
    ensures HasRow(rows, IsExternal(ph)) ==> !NothingAdverse(ph, e, rows)
  {}

  lemma EvidencedExactly(ph: Phrases, e: Episode, c: Candidate, rows: seq<Row>)
    ensures FamilyComplete(ph, e, c, rows) <==> Evidenced(ph, e, c, rows)
  {
    assert forall i: nat :: i < |e.assertions| && KnownBefore(e, ExplicitApproval, c.ordinal, i) ==>
        e.assertions[i].kind == ExplicitApproval;
    match c.family
    case RepeatedApproval =>
      if i :| 0 <= i < |e.assertions| && e.assertions[i].kind == ExplicitApproval && e.assertions[i].strength.Known?
              && e.assertions[i].value == Some(c.action)
              && e.assertions[i].ordinal.Some? && e.assertions[i].ordinal.value < c.ordinal {
        assert KnownBefore(e, ExplicitApproval, c.ordinal, i);
      }
    case Abandonment =>
      if i :| 0 <= i < |e.assertions| && e.assertions[i].kind == StatusExchange && e.assertions[i].strength.Known?
              && e.assertions[i].ordinal.Some? && e.assertions[i].ordinal.value < c.ordinal {
        assert KnownBefore(e, StatusExchange, c.ordinal, i);
      }
    case _ =>
  }

  lemma NothingNoted(ph: Phrases, e: Episode, rows: seq<Row>)
    requires NothingAdverse(ph, e, rows)
    ensures !OnRecord(e, PermissionHold) && !OnRecord(e, Kind.ApprovalWithheld) && !OnRecord(e, ExternalWait)
    ensures !OnRecord(e, ExternalWaitEvidence) && !OnRecord(e, Revocation) && !OnRecord(e, ObservedCompletion)
    ensures !OnRecord(e, ScopeChange)
  {}

  // ---------------------------------------------------------------------
  // Assessing
  // ---------------------------------------------------------------------

  /** References to the assertions of a kind; for evidence only known ones count. */
  method Cite(assertions: seq<Assertion>, kind: Kind, knownOnly: bool) returns (refs: seq<Reference>)
    ensures refs == [] <==>
              !exists i :: 0 <= i < |assertions| && assertions[i].kind == kind
                           && (knownOnly ==> assertions[i].strength.Known?)
  {
    refs := [];
    for i := 0 to |assertions|
      invariant refs == [] <==>
                  !exists k :: 0 <= k < i && assertions[k].kind == kind && (knownOnly ==> assertions[k].strength.Known?)
    {
      if assertions[i].kind == kind && (!knownOnly || assertions[i].strength.Known?) {
        refs := refs + [Reference(assertions[i].ordinal, assertions[i].sourceLine, assertions[i].related)];
      }
    }
  }

  method CiteRows(rows: seq<Row>, holds: Row -> bool) returns (refs: seq<Reference>)
    ensures refs == [] <==> !HasRow(rows, holds)
  {
    refs := [];
    for i := 0 to |rows|
      invariant refs == [] <==> !exists k :: 0 <= k < i && holds(rows[k])
    {
      if holds(rows[i]) {
        refs := refs + [Reference(Some(rows[i].ordinal), Some(rows[i].sourceLine), None)];
      }
    }
  }

  /** The stop reasons and contradictions on record. */
  method Adverse(ph: Phrases, e: Episode, rows: seq<Row>) returns (refs: seq<Reference>)
    ensures refs == [] <==> NothingAdverse(ph, e, rows)
  {
    refs := [];
    if e.adviceOnly {
      refs := Cite(e.assertions, AdviceOnly, false);
    }
    ghost var advice := refs == [];
    for i := 0 to |e.assertions|
      invariant refs == [] <==> advice && forall k :: 0 <= k < i ==> e.assertions[k].kind !in ADVERSE_KINDS
    {
      if e.assertions[i].kind in ADVERSE_KINDS {
        refs := refs + [Reference(e.assertions[i].ordinal, e.assertions[i].sourceLine, None)];
      }
    }
    var completions := CiteRows(rows, IsCompletion(ph));
    var changes := CiteRows(rows, IsChange(ph));
    var externals := CiteRows(rows, IsExternal(ph));
    refs := refs + completions + changes + externals;
  }

  /** What the candidate's family still lacks. */
  method FamilyGaps(ph: Phrases, e: Episode, c: Candidate, rows: seq<Row>)
    returns (missing: seq<Gap>, supporting: seq<Reference>)
    ensures missing == [] <==> FamilyComplete(ph, e, c, rows)
  {
    missing, supporting := [], [];
    if c.family.RepeatedOffer? || c.family.RepeatedApproval? || c.family.StalledDefect? {
      supporting := CiteRows(rows, IsCompletedReply(c.ordinal));
      if supporting == [] {
        missing := missing + [TerminalGap];
      } else {
        supporting := supporting[..1];
      }
    }
    if c.family.RepeatedApproval? && !HasEarlier(e.assertions, ExplicitApproval, Some(c.action), c.ordinal) {
      missing := missing + [SettledApprovalGap];
    }
    if c.family.StalledDefect? && !(ph.defect(c.text) && ph.impeded(c.text) == Some(c.action)) {
      missing := missing + [DefectGap];
    }
    if c.family.Abandonment? {
      if !HasEarlier(e.assertions, StatusExchange, None, c.ordinal) {
        missing := missing + [StatusGap];
      }
      if !ph.approvalOffer(c.text) {
        missing := missing + [AbandonmentGap];
      }
    }
    if c.family.FalseBlocker? {
      if ph.offers(c.text) {
        missing := missing + [ContinuationGap];
      }
      supporting := CiteRows(rows, IsCapabilityCheck(ph, c.action));
      if supporting == [] {
        missing := missing + [CapabilityGap];
      }
    }
  }

  /** What authority, context and scope still lack, with the evidence cited on the way. */
  method AuthorityGaps(e: Episode, c: Candidate) returns (missing: seq<Gap>, supporting: seq<Reference>)
    ensures missing == [] <==> AuthorityComplete(e, c.action)
  {
    missing := [];
    supporting := [Reference(Some(c.ordinal), Some(c.sourceLine), None)];
    if !HasKnown(e.assertions, {PendingAction}, c.action) {
      missing := missing + [PendingActionGap];
    } else {
      var refs := Cite(e.assertions, PendingAction, true);
      supporting := supporting + refs;
    }
    if !e.authority.Authorized? || !HasKnown(e.assertions, {Authorization, ExplicitApproval}, c.action) {
      missing := missing + [AuthorityGap];
    } else {
      var granted := Cite(e.assertions, Authorization, true);
      var approved := Cite(e.assertions, ExplicitApproval, true);
      supporting := supporting + granted + approved;
    }
    if !e.contextKnown {
      missing := missing + [ContextGap];
    }
    var answers := Cite(e.assertions, QuestionAnswer, true);
    var resumes := Cite(e.assertions, SameOutcomeResume, true);
    var statuses := Cite(e.assertions, StatusExchange, true);
    supporting := supporting + answers + resumes + statuses;
    if Has(e.assertions, ScopeRestriction) {
      missing := missing + [RestrictionGap];
      var restrictions := Cite(e.assertions, ScopeRestriction, false);
      supporting := supporting + restrictions;
    }
    if !e.lifecycle.Active? {
      missing := missing + [ObjectiveGap];
    }
  }

  /**
    `_assess`: dismissed exactly when something stops the candidate, and
    supported exactly when nothing does, its action is on record as pending
    and as granted, the episode is active, authorized, of known context and
    unrestricted, and its family's evidence is there.
   */
  method Assess(ph: Phrases, e: Episode, c: Candidate, rows: seq<Row>) returns (a: Assessment)
    ensures a.disposition.Dismissed? <==> !NothingAdverse(ph, e, rows)
    ensures a.disposition.Supported? <==>
              NothingAdverse(ph, e, rows) && AuthorityComplete(e, c.action) && FamilyComplete(ph, e, c, rows)
    ensures a.disconfirming == [] <==> NothingAdverse(ph, e, rows)
    ensures a.disposition == Dismissed <==> Stopped(ph, e, rows)
    ensures a.disposition == Supported <==>
              && !Stopped(ph, e, rows)
              && KnownFor(e, PendingAction, c.action)
              && (KnownFor(e, Authorization, c.action) || KnownFor(e, ExplicitApproval, c.action))
              && e.lifecycle == Active && e.authority == Authorized && e.contextKnown && !OnRecord(e, ScopeRestriction)
              && Evidenced(ph, e, c, rows)
  {
    hide NothingAdverse, FamilyComplete, Evidenced, Stopped;
    StoppedExactly(ph, e, rows);
    EvidencedExactly(ph, e, c, rows);
    ExternalIsAdverse(ph, e, rows);
    var missing, supporting := AuthorityGaps(e, c);
    var disconfirming := Adverse(ph, e, rows);
    if HasRow(rows, IsExternal(ph)) {
      missing := missing + [ExternalGap];
    }
    var more, evidence := FamilyGaps(ph, e, c, rows);
    missing, supporting := missing + more, supporting + evidence;
    var disposition :=
      if disconfirming != [] then Dismissed
      else if missing != [] then NeedsReview
      else Supported;
    a := Assessment(disposition, supporting, disconfirming, missing);
  }

  /** An assessment citing more than the cap is sent back for review. */
  method AssessBounded(ph: Phrases, e: Episode, c: Candidate, rows: seq<Row>) returns (a: Assessment)
    ensures |a.supporting| + |a.disconfirming| <= MAX_REFERENCES
    ensures a.disposition.Supported? ==>
              NothingAdverse(ph, e, rows) && AuthorityComplete(e, c.action) && FamilyComplete(ph, e, c, rows)
  {
    a := Assess(ph, e, c, rows);
    if |a.supporting| + |a.disconfirming| > MAX_REFERENCES {
      var support := a.supporting[..Min(|a.supporting|, MAX_REFERENCES)];
      var adverse := a.disconfirming[..Min(|a.disconfirming|, MAX_REFERENCES - |support|)];
      a := Assessment(NeedsReview, support, adverse, a.missing);
    }
  }

  // ---------------------------------------------------------------------
  // Support rests on a human grant
  // ---------------------------------------------------------------------

  /** Some main-thread human row granted exactly the action. */
  ghost predicate HumanGranted(lex: Lexicon, rows: seq<Row>, action: string) {
    exists k: nat :: k < |rows| && !rows[k].sidechain
      && (RequestGrants(lex, rows[k], Some(action)) || AnswerGrants(lex, rows, rows[k], Some(action)))
  }

  /**
    Whatever the assistant wrote: a candidate of a derived episode can only
    be complete in authority if some main-thread human row granted exactly
    the candidate's action.
   */
  lemma SupportNeedsAHumanGrant(lex: Lexicon, rows: seq<Row>, summary: Option<Summary>, digits: nat -> string,
                                i: nat, action: string)
    requires Derive(lex, rows, summary, digits).Success?
    requires i < |Derive(lex, rows, summary, digits).value|
    requires AuthorityComplete(Derive(lex, rows, summary, digits).value[i], action)
    ensures HumanGranted(lex, rows, action)
  {
    hide Derive;
    EveryGrantHasAHumanSource(lex, rows, summary, digits);
    var e := Derive(lex, rows, summary, digits).value[i];
    var j :| 0 <= j < |e.assertions| && e.assertions[j].kind in {Authorization, ExplicitApproval}
             && e.assertions[j].strength.Known? && e.assertions[j].value == Some(action);
    assert IsGrant(e.assertions[j]) && Sourced(lex, rows, e.assertions[j]);
    var k: nat :| RowGrants(lex, rows, k, e.assertions[j]);
  }

  /** A candidate on the shortlist is a main-thread assistant row naming a pending action. */
  lemma {:induction false} CandidatesArePending(ph: Phrases, rows: seq<Row>, pending: set<string>, i: nat)
    requires i < |AllCandidates(ph, rows, pending)|
    ensures var c := AllCandidates(ph, rows, pending)[i];
            && c.action in pending
            && exists k :: 0 <= k < |rows| && !rows[k].sidechain && rows[k].origin.AssistantText?
                           && rows[k].ordinal == c.ordinal && rows[k].text == c.text
    decreases |rows|
  {
    var n := |rows| - 1;
    var before := AllCandidates(ph, rows[..n], pending);
    if i < |before| {
      CandidatesArePending(ph, rows[..n], pending, i);
      var k :| 0 <= k < n && !rows[..n][k].sidechain && rows[..n][k].origin.AssistantText?
               && rows[..n][k].ordinal == before[i].ordinal && rows[..n][k].text == before[i].text;
      assert rows[k] == rows[..n][k];
    } else {
      RowCandidatesArePending(ph, rows[n], pending, i - |before|);
      assert !rows[n].sidechain && rows[n].origin.AssistantText?;
    }
  }

  lemma RowCandidatesArePending(ph: Phrases, row: Row, pending: set<string>, i: nat)
    requires i < |RowCandidates(ph, row, pending)|
    ensures var c := RowCandidates(ph, row, pending)[i];
            c.action in pending && c.ordinal == row.ordinal && c.text == row.text
  {}

  // ---------------------------------------------------------------------
  // The projection of a session
  // ---------------------------------------------------------------------

  datatype Finding = Finding(candidate: Candidate, assessment: Assessment)

  /** The rows between the episode's first and last. */
  function RowsOf(e: Episode, rows: seq<Row>): seq<Row> {
    if rows == [] then []
    else
      var last := rows[|rows| - 1];
      RowsOf(e, rows[..|rows| - 1]) + (if e.start <= last.ordinal <= e.end then [last] else [])
  }

  predicate HasAction(e: Episode) {
    e.action.Some? && e.action.value != ""
  }

  /** What an episode's family is assessed on: its earliest candidate for a pending action. */
  function CandidateOf(ph: Phrases, e: Episode, rows: seq<Row>, f: Family): Option<Candidate> {
    if !HasAction(e) then None else FirstOf(CandidatesOf(ph, e, rows), 0, f)
  }

  function CandidatesOf(ph: Phrases, e: Episode, rows: seq<Row>): seq<Candidate>
    requires HasAction(e)
  {
    AllCandidates(ph, RowsOf(e, rows), PendingOf(e))
  }

  function PendingOf(e: Episode): set<string>
    requires HasAction(e)
  {
    set key | key in SplitKeys(e.action.value)
  }

  /** Nothing adverse, and authority and evidence complete. */
  predicate SupportComplete(ph: Phrases, e: Episode, c: Candidate, rows: seq<Row>) {
    NothingAdverse(ph, e, rows) && AuthorityComplete(e, c.action) && FamilyComplete(ph, e, c, rows)
  }

  /** One finding for every family that has a candidate, supported only with everything complete. */
  ghost predicate EpisodeFindings(ph: Phrases, e: Episode, rows: seq<Row>, found: map<Family, Finding>) {
    && (forall f :: f in found <==> CandidateOf(ph, e, rows, f).Some?)
    && (forall f :: f in found ==>
          && CandidateOf(ph, e, rows, f) == Some(found[f].candidate)
          && (found[f].assessment.disposition.Supported? ==>
                SupportComplete(ph, e, found[f].candidate, RowsOf(e, rows))))
  }

  method SelectRows(e: Episode, rows: seq<Row>) returns (selected: seq<Row>)
    ensures selected == RowsOf(e, rows)
  {
    selected := [];
    for i := 0 to |rows|
      invariant selected == RowsOf(e, rows[..i])
    {
      assert rows[..i + 1][..i] == rows[..i];
      if e.start <= rows[i].ordinal <= e.end {
        selected := selected + [rows[i]];
      }
    }
    assert rows[..|rows|] == rows;
  }

  method AssessEpisode(ph: Phrases, e: Episode, rows: seq<Row>) returns (found: map<Family, Finding>)
    ensures EpisodeFindings(ph, e, rows, found)
  {
    hide AuthorityComplete, AllCandidates, RowsOf, NothingAdverse, FamilyComplete, Chosen, EpisodeFindings;
    found := map[];
    if !HasAction(e) {
      NothingToFind(ph, e, rows);
      return;
    }
    var selected := SelectRows(e, rows);
    var chosen := Shortlist(ph, selected, PendingOf(e));
    var rest := chosen.Keys;
    while rest != {}
      invariant rest <= chosen.Keys && found.Keys == chosen.Keys - rest
      invariant forall f :: f in found ==>
                  && found[f].candidate == chosen[f]
                  && (found[f].assessment.disposition.Supported? ==> SupportComplete(ph, e, chosen[f], selected))
      decreases |rest|
    {
      var f :| f in rest;
      var a := AssessBounded(ph, e, chosen[f], selected);
      found := found[f := Finding(chosen[f], a)];
      rest := rest - {f};
    }
    ChosenAreFound(ph, e, rows, chosen, found);
  }

  lemma NothingToFind(ph: Phrases, e: Episode, rows: seq<Row>)
    requires !HasAction(e)
    ensures EpisodeFindings(ph, e, rows, map[])
  {}

  /** Assessing just the chosen candidates finds what there is. */
  lemma ChosenAreFound(ph: Phrases, e: Episode, rows: seq<Row>, chosen: map<Family, Candidate>,
                       found: map<Family, Finding>)
    requires HasAction(e) && Chosen(CandidatesOf(ph, e, rows), 0, chosen) && found.Keys == chosen.Keys
    requires forall f :: f in found ==>
               && found[f].candidate == chosen[f]
               && (found[f].assessment.disposition.Supported? ==> SupportComplete(ph, e, chosen[f], RowsOf(e, rows)))
    ensures EpisodeFindings(ph, e, rows, found)
  {
    hide SupportComplete, CandidatesOf;
    forall f ensures CandidateOf(ph, e, rows, f) == if f in chosen then Some(chosen[f]) else None {
      assert FirstOf(CandidatesOf(ph, e, rows), 0, f) == if f in chosen then Some(chosen[f]) else None;
    }
  }

  lemma FoundIsComplete(ph: Phrases, e: Episode, rows: seq<Row>, found: map<Family, Finding>, f: Family)
    requires EpisodeFindings(ph, e, rows, found) && f in found && found[f].assessment.disposition.Supported?
    ensures AuthorityComplete(e, found[f].candidate.action)
  {}

  /**
    `project`, for one session: it raises exactly when deriving does, gives
    one finding for every family of every episode that has a candidate, and
    supports one only if a main-thread human row granted exactly its action.
   */
  method ProjectSession(ph: Phrases, lex: Lexicon, rows: seq<Row>, summary: Option<Summary>, digits: nat -> string)
    returns (r: Result<seq<map<Family, Finding>>, DeriveError>)
    ensures r.Success? <==> Derive(lex, rows, summary, digits).Success?
    ensures r.Success? ==>
              var episodes := Derive(lex, rows, summary, digits).value;
              && |r.value| == |episodes|
              && (forall i :: 0 <= i < |episodes| ==> EpisodeFindings(ph, episodes[i], rows, r.value[i]))
              && (forall i, f :: 0 <= i < |r.value| && f in r.value[i] ==>
                    (r.value[i][f].assessment.disposition.Supported? ==>
                       HumanGranted(lex, rows, r.value[i][f].candidate.action)))
  {
    hide Derive, EpisodeFindings, HumanGranted, AuthorityComplete;
    var derived := DeriveEpisodes(lex, rows, summary, digits);
    if derived.Failure? {
      return Failure(derived.error);
    }
    var episodes := derived.value;
    var findings: seq<map<Family, Finding>> := [];
    for i := 0 to |episodes|
      invariant |findings| == i
      invariant forall k :: 0 <= k < i ==> EpisodeFindings(ph, episodes[k], rows, findings[k])
    {
      var found := AssessEpisode(ph, episodes[i], rows);
      findings := findings + [found];
    }
    forall i, f | 0 <= i < |findings| && f in findings[i] && findings[i][f].assessment.disposition.Supported?
      ensures HumanGranted(lex, rows, findings[i][f].candidate.action)
    {
      FoundIsComplete(ph, episodes[i], rows, findings[i], f);
      SupportNeedsAHumanGrant(lex, rows, summary, digits, i, findings[i][f].candidate.action);
    }
    r := Success(findings);
  }
}
