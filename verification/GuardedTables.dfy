/**
  Core's guarded tables as instances of the evidence ledger: the transition each trigger
  allows, the columns it ties to the event, and what follows for every reachable row.
  NULL-safe `IS` in the triggers is equality of options here.
 */
module GuardedTables {
  import opened Wrappers
  import opened EvidenceLedger

  type Time = int

  // ---------------------------------------------------------------- tool confirmations (0016)

  datatype ConfirmationState = Awaiting | Consumed | Rejected | Expired

  datatype Confirmation = Confirmation(
    consumedAt: Option<Time>, rejectedAt: Option<Time>, expiredAt: Option<Time>, updatedAt: Time)

  datatype ConfirmationKind = Create | Approve | Reject | Expire

  datatype ConfirmationDetail = ConfirmationDetail(kind: ConfirmationKind, effectiveAt: Time)

  predicate ConfirmationCheck(row: Row<ConfirmationState, Confirmation>) {
    && (row.data.consumedAt.Some? <==> row.state.Consumed?)
    && (row.data.rejectedAt.Some? <==> row.state.Rejected?)
    && (row.data.expiredAt.Some? <==> row.state.Expired?)
  }

  predicate ConfirmationRule(
    before: Row<ConfirmationState, Confirmation>, after: Row<ConfirmationState, Confirmation>,
    event: Evidence<ConfirmationState, ConfirmationDetail>)
  {
    && before.state.Awaiting? && !after.state.Awaiting?
    && event.detail.effectiveAt == after.data.updatedAt
    && (match event.detail.kind
        case Approve => after.state.Consumed? && after.data.consumedAt == Some(event.detail.effectiveAt)
        case Reject => after.state.Rejected? && after.data.rejectedAt == Some(event.detail.effectiveAt)
        case Expire => after.state.Expired? && after.data.expiredAt == Some(event.detail.effectiveAt)
        case Create => false)
    && ConfirmationCheck(after)
  }

  predicate ConfirmationInvariant(row: Row<ConfirmationState, Confirmation>) {
    ConfirmationCheck(row) && row.version == if row.state.Awaiting? then 1 else 2
  }

  /** A confirmation is decided at most once, at the time its one deciding event took effect. */
  lemma ConfirmationIsDecidedOnce(
    tables: seq<Table<ConfirmationState, Confirmation, ConfirmationDetail>>, i: nat)
    requires Run(ConfirmationRule, tables) && i < |tables|
    requires tables[0].row.state.Awaiting? && ConfirmationCheck(tables[0].row)
    ensures var t := tables[i];
            && ConfirmationCheck(t.row)
            && t.row.version == (if t.row.state.Awaiting? then 1 else 2)
            && (t.row.version == 2 ==>
                  && 2 in t.events && t.events[2].previous == Some(Awaiting) && t.events[2].state == t.row.state
                  && t.row.data.updatedAt == t.events[2].detail.effectiveAt
                  && Some(t.row.data.updatedAt) in {t.row.data.consumedAt, t.row.data.rejectedAt, t.row.data.expiredAt})
  {
    LedgerInduction(ConfirmationRule, ConfirmationInvariant, tables, i);
    var history := RunIsEvidenced(ConfirmationRule, tables, i);
    if |history| == 2 {
      assert Admits(ConfirmationRule, history[0], history[1], tables[i].events);
    }
  }

  // ---------------------------------------------------------------- tool artifacts (0016)

  datatype ArtifactState = Reserved | Uploading | Finalized | Refused | Lapsed

  datatype Artifact = Artifact(
    provider: string, fence: int, maxBytes: int,
    content: Option<string>, bytes: Option<int>, width: Option<int>, height: Option<int>,
    storage: Option<string>,
    finalizedAt: Option<Time>, referencedAt: Option<Time>, rejectedAt: Option<Time>,
    expiredAt: Option<Time>, deletedAt: Option<Time>, updatedAt: Time)

  datatype ArtifactKind =
    | Reserve | UploadStart | UploadComplete | Finalize | Reference | RejectUpload | ExpireUpload | Cleanup

  datatype ArtifactDetail = ArtifactDetail(kind: ArtifactKind, provider: string, fence: int, effectiveAt: Time)

  type ArtifactRow = Row<ArtifactState, Artifact>

  predicate ArtifactCheck(row: ArtifactRow) {
    var a := row.data;
    && (a.width.Some? <==> a.height.Some?)
    && (a.content.Some? <==> a.bytes.Some?)
    && (a.bytes.Some? ==> 1 <= a.bytes.value <= a.maxBytes)
    && (a.finalizedAt.Some? <==> row.state.Finalized?)
    && (a.rejectedAt.Some? <==> row.state.Refused?)
    && (a.expiredAt.Some? <==> row.state.Lapsed?)
    && (row.state.Finalized? ==> a.content.Some? && a.storage.Some?)
  }

  /** One kind of event may write these columns; everything else stays. */
  predicate ArtifactRule(
    before: ArtifactRow, after: ArtifactRow, event: Evidence<ArtifactState, ArtifactDetail>)
  {
    var a, b, at := before.data, after.data, event.detail.effectiveAt;
    && event.detail.provider == a.provider && event.detail.fence == a.fence
    && at == b.updatedAt
    && (match event.detail.kind
        case UploadStart =>
          before.state.Reserved? && after.state.Uploading? && b == a.(updatedAt := at)
        case UploadComplete =>
          && before.state.Uploading? && after.state.Uploading?
          && a.content.None? && a.bytes.None? && a.width.None? && a.height.None?
          && b.content.Some? && b.bytes.Some? && b.width.Some? && b.height.Some?
          && b == a.(content := b.content, bytes := b.bytes, width := b.width, height := b.height, updatedAt := at)
        case Finalize =>
          && before.state.Uploading? && after.state.Finalized? && a.finalizedAt.None? && b.storage.Some?
          && b == a.(storage := b.storage, finalizedAt := Some(at), updatedAt := at)
        case Reference =>
          && before.state.Finalized? && after.state.Finalized? && a.referencedAt.None?
          && b == a.(referencedAt := Some(at), updatedAt := at)
        case RejectUpload =>
          && (before.state.Reserved? || before.state.Uploading?) && after.state.Refused? && a.rejectedAt.None?
          && b == a.(rejectedAt := Some(at), updatedAt := at)
        case ExpireUpload =>
          && (before.state.Reserved? || before.state.Uploading?) && after.state.Lapsed? && a.expiredAt.None?
          && b == a.(expiredAt := Some(at), updatedAt := at)
        case Cleanup =>
          after.state == before.state && a.deletedAt.None? && b == a.(deletedAt := Some(at), updatedAt := at)
        case Reserve => false)
    && ArtifactCheck(after)
  }

  function One<T>(column: Option<T>): nat {
    if column.Some? then 1 else 0
  }

  /** How far a row has come: each event moves exactly one of these, and none moves back. */
  function ArtifactProgress(row: ArtifactRow): nat {
    var a := row.data;
    One(a.content) + One(a.referencedAt) + One(a.deletedAt)
    + (match row.state case Reserved => 0 case Uploading => 1 case _ => 2)
  }

  ghost predicate FreshArtifact(row: ArtifactRow) {
    && row.state.Reserved? && row.version == 1 && ArtifactCheck(row)
    && row.data.content.None? && row.data.referencedAt.None? && row.data.deletedAt.None?
  }

  ghost predicate ArtifactInvariant(row: ArtifactRow) {
    && ArtifactCheck(row)
    && row.version <= 1 + ArtifactProgress(row)
    && (row.state.Uploading? || row.state.Finalized? ==> row.version == 1 + ArtifactProgress(row))
    && (row.state.Reserved? ==> row.version == 1 + ArtifactProgress(row) && row.data.content.None?)
    && (row.data.referencedAt.Some? ==> row.state.Finalized?)
  }

  lemma ArtifactStep(before: ArtifactRow, after: ArtifactRow, event: Evidence<ArtifactState, ArtifactDetail>)
    requires ArtifactInvariant(before) && after.version == before.version + 1 && ArtifactRule(before, after, event)
    ensures ArtifactInvariant(after)
    ensures before.data.content.Some? ==>
              after.data.content == before.data.content && after.data.bytes == before.data.bytes
    ensures after.data.content.Some? && before.data.content.None? ==> event.detail.kind.UploadComplete?
    ensures ArtifactProgress(before) < ArtifactProgress(after)
  {
  }

  lemma {:induction false} ArtifactHistory(
    t: Table<ArtifactState, Artifact, ArtifactDetail>, history: seq<ArtifactRow>, j: nat)
    requires Evidenced(ArtifactRule, t, history) && FreshArtifact(history[0]) && j < |history|
    ensures ArtifactInvariant(history[j])
    ensures forall k :: 0 <= k < j && history[k].data.content.Some? ==>
              history[j].data.content == history[k].data.content
    ensures history[j].data.content.Some? ==>
              exists v :: 2 <= v <= j + 1 && v in t.events && t.events[v].detail.kind.UploadComplete?
  {
    if j > 0 {
      ArtifactHistory(t, history, j - 1);
      assert Admits(ArtifactRule, history[j - 1], history[j], t.events);
      VersionsAreNumbered(ArtifactRule, t, history, j);
      ArtifactStep(history[j - 1], history[j], t.events[j + 1]);
    }
  }

  /**
    An artifact reserved at version 1 never passes version 6; whenever it is finalized an
    earlier event completed the upload whose hash it carries.
   */
  lemma ArtifactLifeIsBounded(tables: seq<Table<ArtifactState, Artifact, ArtifactDetail>>, i: nat)
    requires Run(ArtifactRule, tables) && i < |tables| && FreshArtifact(tables[0].row)
    ensures var t := tables[i];
            && t.row.version <= 6
            && (t.row.state.Finalized? ==>
                  && t.row.version == 4 + One(t.row.data.referencedAt) + One(t.row.data.deletedAt)
                  && exists v :: 2 <= v <= t.row.version && v in t.events && t.events[v].detail.kind.UploadComplete?)
  {
    var history := RunIsEvidenced(ArtifactRule, tables, i);
    ArtifactHistory(tables[i], history, |history| - 1);
  }

  /** The content hash is write-once over the whole life of the row. */
  lemma {:induction false} ArtifactContentIsWriteOnce(
    tables: seq<Table<ArtifactState, Artifact, ArtifactDetail>>, i: nat, j: nat)
    requires Run(ArtifactRule, tables) && i <= j < |tables| && FreshArtifact(tables[0].row)
    requires tables[i].row.data.content.Some?
    ensures tables[j].row.data.content == tables[i].row.data.content
  {
    if i < j {
      ArtifactContentIsWriteOnce(tables, i, j - 1);
      assert Step(ArtifactRule, tables[j - 1], tables[j]);
    }
  }

  // ---------------------------------------------------------------- agent runs (0020)

  datatype RunState =
    | ContextReady | ModelRunning | ShadowComplete | RunFailed | TimedOut | BudgetExhausted | Cancelled

  datatype AgentRun = AgentRun(attempts: nat)

  predicate RunRule(
    before: Row<RunState, AgentRun>, after: Row<RunState, AgentRun>, event: Evidence<RunState, string>)
  {
    || (before.state.ContextReady? && after.state.ModelRunning? && after.data.attempts == before.data.attempts + 1)
    || (before.state.ModelRunning? && !after.state.ModelRunning? && after.data.attempts == before.data.attempts)
  }

  predicate RunCounts(row: Row<RunState, AgentRun>) {
    row.version == 2 * row.data.attempts + (if row.state.ModelRunning? then 0 else 1)
  }

  /** The version of a run is a closed form of its attempt count: every attempt is two events. */
  lemma RunVersionCountsAttempts(tables: seq<Table<RunState, AgentRun, string>>, i: nat)
    requires Run(RunRule, tables) && i < |tables|
    requires tables[0].row == Row(ContextReady, 1, AgentRun(0))
    ensures RunCounts(tables[i].row)
  {
    LedgerInduction(RunRule, RunCounts, tables, i);
  }

  // ---------------------------------------------------------------- agent interactions (0024)

  datatype InteractionState =
    | Accepted | Planning | ToolPending | Continuing | DeliveryPending
    | Succeeded | InteractionFailed | Ambiguous | InteractionExpired

  datatype Interaction = Interaction(runId: Option<string>, loopId: Option<string>, terminalAt: Option<Time>)

  predicate InteractionTerminal(state: InteractionState) {
    state in {Succeeded, InteractionFailed, Ambiguous, InteractionExpired}
  }

  predicate InteractionRule(
    before: Row<InteractionState, Interaction>, after: Row<InteractionState, Interaction>,
    event: Evidence<InteractionState, string>)
  {
    && (match before.state
        case Accepted => after.state in {Planning, InteractionFailed, InteractionExpired}
        case Planning => after.state in {ToolPending, DeliveryPending, InteractionFailed, InteractionExpired}
        case ToolPending => after.state in {Continuing, DeliveryPending, InteractionFailed, InteractionExpired}
        case Continuing => after.state in {DeliveryPending, InteractionFailed, InteractionExpired}
        case DeliveryPending => InteractionTerminal(after.state)
        case _ => false)
    && (after.data.terminalAt.Some? <==> InteractionTerminal(after.state))
  }

  function InteractionRank(state: InteractionState): nat {
    match state
    case Accepted => 1
    case Planning => 2
    case ToolPending => 3
    case Continuing => 4
    case DeliveryPending => 5
    case _ => 6
  }

  predicate InteractionBounded(row: Row<InteractionState, Interaction>) {
    && row.version <= InteractionRank(row.state)
    && (row.data.terminalAt.Some? <==> InteractionTerminal(row.state))
    && (row.state in {Succeeded, Ambiguous} ==> 4 <= row.version)
    && (row.state.DeliveryPending? ==> 3 <= row.version)
    && (row.state in {Accepted, Planning, ToolPending, Continuing} ==> row.version == InteractionRank(row.state))
  }

  /** No interaction takes more than six versions, and none succeeds without passing delivery. */
  lemma InteractionLifeIsBounded(tables: seq<Table<InteractionState, Interaction, string>>, i: nat)
    requires Run(InteractionRule, tables) && i < |tables|
    requires tables[0].row.state.Accepted? && tables[0].row.data.terminalAt.None?
    ensures var t := tables[i];
            && InteractionBounded(t.row) && t.row.version <= 6
            && (t.row.state in {Succeeded, Ambiguous} ==>
                  t.row.version in t.events && t.events[t.row.version].previous == Some(DeliveryPending))
  {
    LedgerInduction(InteractionRule, InteractionBounded, tables, i);
    var t := tables[i];
    var history := RunIsEvidenced(InteractionRule, tables, i);
    if t.row.version >= 2 {
      assert Admits(InteractionRule, history[|history| - 2], history[|history| - 1], t.events);
    }
  }

  /** A terminal interaction is final. */
  lemma {:induction false} TerminalInteractionIsFinal(
    tables: seq<Table<InteractionState, Interaction, string>>, i: nat, j: nat)
    requires Run(InteractionRule, tables) && i <= j < |tables|
    requires InteractionTerminal(tables[i].row.state)
    ensures tables[j].row == tables[i].row
  {
    if i < j {
      TerminalInteractionIsFinal(tables, i, j - 1);
      assert Step(InteractionRule, tables[j - 1], tables[j]);
    }
  }

  // ---------------------------------------------------------------- rollout plans (0015d)

  datatype Lifecycle = Reviewed | Active | Paused

  predicate RolloutRule(before: Row<Lifecycle, Time>, after: Row<Lifecycle, Time>, event: Evidence<Lifecycle, string>) {
    || (before.state.Reviewed? && after.state.Active?)
    || (before.state.Active? && after.state.Paused?)
    || (before.state.Paused? && after.state.Active?)
  }

  /** The lifecycle is the version's parity: a plan can be paused and resumed for ever. */
  predicate RolloutParity(row: Row<Lifecycle, Time>) {
    && 1 <= row.version
    && (row.state.Reviewed? <==> row.version == 1)
    && (row.state.Active? <==> row.version % 2 == 0)
  }

  lemma RolloutLifecycleIsParity(tables: seq<Table<Lifecycle, Time, string>>, i: nat)
    requires Run(RolloutRule, tables) && i < |tables| && tables[0].row.state.Reviewed?
    ensures RolloutParity(tables[i].row)
  {
    LedgerInduction(RolloutRule, RolloutParity, tables, i);
  }
}
