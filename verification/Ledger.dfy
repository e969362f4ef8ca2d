/** The competition ledger (internal/platform/adjudication.go, submissions.go and
    versions.go, with the version life cycle of creation.go and editorial.go): what
    each committed transaction does to the tables. Scores, thresholds and the metric
    are integers here, since a validated manifest parses. */
module Ledger {
  import opened Wrappers
  import opened Scores

  type Mid = string

  /** The locked metric and milestones of a version. */
  datatype Contract = Contract(direction: string, baseline: int, delta: int, evaluated: bool, milestones: map<Mid, int>)

  predicate ValidContract(c: Contract) { KnownDirection(c.direction) && c.delta > 0 }

  /** The outcome of a submission; `shown` are the milestones whose requirements both
      runs demonstrate, `faulty` those whose evidence cannot be evaluated. */
  datatype Verdict = Verdict(valid: bool, score: int, shown: set<Mid>, faulty: set<Mid>)

  datatype RowStatus = Pending | Validated | Finalized

  /** A submission. The row at index i has sequence number i + 1; `held` says that
      its capacity reservation is not released. */
  datatype Row = Row(status: RowStatus, verdict: Verdict, publish: bool, public: bool, held: bool)

  datatype Status = Draft | Preflight | ChangesRequired | ReviewReady | Locked | Signing
                  | Published | Superseded | Withdrawn | Compromised
  datatype Intake = Unavailable | Open | Paused | Closed
  datatype Kind = Season | Security

  /** A challenge version. next_sequence is the number of rows; `live` are the
      milestones mapped to the version; `staged` is the signed migration evidence;
      `preflights` counts the preflights without a result yet. */
  datatype Version = Version(challenge: nat, contract: Contract, kind: Kind, predecessor: Option<nat>,
                             priorFrontier: Option<nat>, staged: Option<(nat, Option<nat>)>, status: Status,
                             intake: Intake, locked: bool, preflights: nat,
                             rows: seq<Row>, watermark: nat, best: Option<nat>, frontier: Option<nat>, live: set<Mid>)

  /** `tiers` gives the version that introduced a milestone, `claims` the version and
      row index that won it. */
  datatype State = State(versions: seq<Version>, tiers: map<Mid, nat>, claims: map<Mid, (nat, nat)>, reserved: int,
                         maximum: int)

  function Put(l: State, v: nat, version: Version): State
    requires v < |l.versions|
  {
    l.(versions := l.versions[v := version])
  }

  // ------------------------------------------------------------- adjudication

  /** The score that a recorded row stands for; without one, the baseline. */
  function ValueOf(c: Contract, rows: seq<Row>, at: Option<nat>): int {
    if at.Some? && at.value < |rows| then rows[at.value].verdict.score else c.baseline
  }

  /** A receipt reaches a milestone: shown by both runs where the contract asks for
      it, and across the threshold. */
  predicate Reaches(c: Contract, r: Verdict, m: Mid) {
    r.valid && (c.evaluated ==> m in r.shown) && m in c.milestones && Crosses(r.score, c.milestones[m], c.direction)
  }

  function OpenMilestones(l: State, v: nat): set<Mid>
    requires v < |l.versions|
  {
    set m | m in l.versions[v].live && m !in l.claims
  }

  function Won(l: State, v: nat, r: Verdict): set<Mid>
    requires v < |l.versions|
  {
    set m | m in OpenMilestones(l, v) && Reaches(l.versions[v].contract, r, m)
  }

  predicate Ready(version: Version) {
    version.watermark < |version.rows| && version.rows[version.watermark].status == Validated
  }

  /** The error path: an open milestone whose evidence or mapping is unusable. */
  predicate Unusable(l: State, v: nat)
    requires v < |l.versions| && Ready(l.versions[v])
  {
    var r, c := l.versions[v].rows[l.versions[v].watermark].verdict, l.versions[v].contract;
    r.valid && c.evaluated && exists m :: m in OpenMilestones(l, v) && (m in r.faulty || m !in c.milestones)
  }

  function Publishing(r: Row, won: set<Mid>): bool { r.publish || won != {} }

  /** One iteration of adjudicate: the receipt at the watermark is finalized. */
  function Finalize(l: State, v: nat): State
    requires v < |l.versions| && Ready(l.versions[v])
  {
    var version := l.versions[v];
    var c, i := version.contract, version.watermark;
    var row := version.rows[i];
    var won := Won(l, v, row.verdict);
    var publish := Publishing(row, won);
    var record := row.verdict.valid && Better(row.verdict.score, ValueOf(c, version.rows, version.best), c.direction);
    var advance := row.verdict.valid && publish
      && Meaningful(row.verdict.score, ValueOf(c, version.rows, version.frontier), c.delta, c.direction);
    Put(l, v, version.(rows := version.rows[i := row.(status := Finalized, public := publish, held := false)],
                       watermark := i + 1, best := if record then Some(i) else version.best,
                       frontier := if advance then Some(i) else version.frontier))
    .(claims := l.claims + (map m | m in won :: (v, i)), reserved := if row.held then l.reserved - 2 else l.reserved)
  }

  /** The loop of adjudicate; none when an error rolls the transaction back. */
  function Settle(l: State, v: nat): Option<State>
    requires v < |l.versions|
    decreases if l.versions[v].watermark < |l.versions[v].rows| then |l.versions[v].rows| - l.versions[v].watermark
              else 0
  {
    if !Ready(l.versions[v]) then Some(l)
    else if Unusable(l, v) then None
    else Settle(Finalize(l, v), v)
  }

  function Adjudicate(l: State, v: nat): State {
    if v >= |l.versions| then l else if Settle(l, v).Some? then Settle(l, v).value else l
  }

  // -------------------------------------------------------------- submissions

  const NO_VERDICT := Verdict(false, 0, {}, {})

  /** acceptIntent: reserve two units, assign the next sequence number. */
  function Accept(l: State, v: nat, publish: bool): State {
    if v >= |l.versions| || l.versions[v].intake != Open || !l.versions[v].locked || l.reserved + 2 > l.maximum then l
    else
      Put(l, v, l.versions[v].(rows := l.versions[v].rows + [Row(Pending, NO_VERDICT, publish, false, true)]))
      .(reserved := l.reserved + 2)
  }

  /** The end of runnerResult: a pending submission gets its verdict; disagreeing
      runs pause intake. */
  function Validate(l: State, v: nat, i: nat, verdict: Verdict, pause: bool): State {
    if v >= |l.versions| || i >= |l.versions[v].rows| || l.versions[v].rows[i].status != Pending then l
    else
      var version := l.versions[v];
      Put(l, v, version.(rows := version.rows[i := version.rows[i].(status := Validated, verdict := verdict)],
                         intake := if pause then Paused else version.intake))
  }

  /** A checker fault pauses intake; its submission stays pending. */
  function Incident(l: State, v: nat, i: nat): State {
    if v >= |l.versions| || i >= |l.versions[v].rows| || l.versions[v].rows[i].status != Pending then l
    else Put(l, v, l.versions[v].(intake := Paused))
  }

  /** publishSubmission: the owner publishes a finalized valid submission. */
  function Publicize(l: State, v: nat, i: nat): State {
    if v >= |l.versions| || i >= |l.versions[v].rows| then l
    else
      var version := l.versions[v];
      var row := version.rows[i];
      if row.status != Finalized || !row.verdict.valid || row.public then l
      else
        var advance := Meaningful(row.verdict.score, ValueOf(version.contract, version.rows, version.frontier),
                                  version.contract.delta, version.contract.direction);
        Put(l, v, version.(rows := version.rows[i := row.(public := true, publish := true)],
                           frontier := if advance then Some(i) else version.frontier))
  }

  // ----------------------------------------------------------------- versions

  function FreshVersion(challenge: nat, c: Contract, kind: Kind, predecessor: Option<nat>, priorFrontier: Option<nat>,
                        live: set<Mid>): Version {
    Version(challenge, c, kind, predecessor, priorFrontier, None, Draft, Unavailable, false, 0, [], 0, None, None, live)
  }

  /** A new challenge: its milestone ids must be new. */
  function CreateChallenge(l: State, challenge: nat, c: Contract): State {
    if !ValidContract(c) || (exists v :: 0 <= v < |l.versions| && l.versions[v].challenge == challenge)
      || !(c.milestones.Keys !! l.tiers.Keys) then l
    else
      l.(versions := l.versions + [FreshVersion(challenge, c, Season, None, None, c.milestones.Keys)],
         tiers := l.tiers + (map m | m in c.milestones :: |l.versions|))
  }

  /** The latest version of a challenge. */
  predicate Latest(l: State, v: nat, challenge: nat) {
    v < |l.versions| && l.versions[v].challenge == challenge
    && forall w :: v < w < |l.versions| ==> l.versions[w].challenge != challenge
  }

  predicate Drained(version: Version) { |version.rows| == version.watermark }

  predicate Stopped(version: Version) { version.intake == Paused || version.intake == Closed }

  /** A milestone id the successor may carry over. */
  predicate Transferable(l: State, prior: nat, m: Mid)
    requires prior < |l.versions|
  {
    m in l.tiers && l.tiers[m] < |l.versions| && l.versions[l.tiers[m]].challenge == l.versions[prior].challenge
    && m !in l.claims && m in l.versions[prior].live
  }

  function Supersede(version: Version): Version { version.(status := Superseded, intake := Closed) }

  /** createVersion, its transaction. */
  function CreateVersion(l: State, prior: nat, kind: Kind, c: Contract): State {
    if prior >= |l.versions| || !Latest(l, prior, l.versions[prior].challenge) || !ValidContract(c) then l
    else
      var p := l.versions[prior];
      if (kind == Security && !Stopped(p)) || !Drained(p) || p.status == Preflight
         || (exists m :: m in c.milestones && m in l.tiers && (kind == Season || !Transferable(l, prior, m)))
      then l
      else
        var introduced := set m | m in c.milestones && m !in l.tiers;
        var others := if kind == Season then l.versions[prior := Supersede(p)] else l.versions;
        l.(versions := others + [FreshVersion(p.challenge, c, kind, Some(prior), p.frontier, introduced)],
           tiers := l.tiers + (map m | m in introduced :: |l.versions|))
  }

  /** No other version of the challenge accepts submissions. */
  predicate OnlyOpen(l: State, v: nat)
    requires v < |l.versions|
  {
    forall w :: 0 <= w < |l.versions| && w != v && l.versions[w].challenge == l.versions[v].challenge ==>
      l.versions[w].intake != Open
  }

  predicate SourceStill(l: State, v: nat)
    requires v < |l.versions|
  {
    var p := l.versions[v].predecessor;
    p.Some? && p.value < v && Drained(l.versions[p.value]) && Stopped(l.versions[p.value])
    && l.versions[p.value].frontier == l.versions[v].priorFrontier
  }

  /** publishChallenge with stageMigration: an ordinary version opens, a security
      migration waits for its signed evidence. */
  function Publish(l: State, v: nat): State {
    if v >= |l.versions| || l.versions[v].status != Locked then l
    else if l.versions[v].kind == Security then
      if !SourceStill(l, v) then l
      else
        var p := l.versions[l.versions[v].predecessor.value];
        Put(l, v, l.versions[v].(status := Signing, staged := Some((p.watermark, p.frontier))))
    else if !OnlyOpen(l, v) then l
    else Put(l, v, l.versions[v].(status := Published, intake := Open))
  }

  /** completeMigration, once the evidence is signed. */
  function CompleteMigration(l: State, v: nat): State {
    if v >= |l.versions| || l.versions[v].status != Signing || !SourceStill(l, v) then l
    else
      var version, prior := l.versions[v], l.versions[v].predecessor.value;
      var p := l.versions[prior];
      var closed := Put(l, prior, Supersede(p));
      if version.staged != Some((p.watermark, p.frontier)) || !OnlyOpen(closed, v)
         || (exists m :: m in version.contract.milestones
                      && (m !in l.tiers || m in l.claims || (l.tiers[m] != v && m !in p.live)))
      then l
      else Put(closed, v, version.(status := Published, intake := Open,
                                   live := version.live + version.contract.milestones.Keys))
  }

  /** The life cycle before and after publication. */
  datatype Action = StartPreflight | PreflightFailed | PreflightPassed | Lock | AskChanges
                  | Withdraw | Reject | Pause | Resume | Compromise

  predicate MigrationPending(l: State, v: nat) {
    exists w :: 0 <= w < |l.versions| && l.versions[w].predecessor == Some(v) && l.versions[w].kind == Security
                && l.versions[w].status !in {Published, Superseded, Compromised}
  }

  /** A preflight's one result, which moves an unlocked version only. */
  function PreflightResult(version: Version, status: Status): Version {
    if version.preflights == 0 then version
    else version.(preflights := version.preflights - 1, status := if version.locked then version.status else status)
  }

  function Act(l: State, v: nat, a: Action): State {
    if v >= |l.versions| then l
    else
      var version := l.versions[v];
      var changed :=
        match a
        case StartPreflight =>
          if version.status in {Draft, ChangesRequired}
          then version.(status := Preflight, preflights := version.preflights + 1) else version
        case PreflightFailed => PreflightResult(version, ChangesRequired)
        case PreflightPassed => PreflightResult(version, ReviewReady)
        case Lock => if version.status == ReviewReady && !version.locked then version.(status := Locked, locked := true)
                     else version
        case AskChanges => if !version.locked then version.(status := ChangesRequired) else version
        case Withdraw => if version.status in {Published, Superseded}
                         then version.(status := Withdrawn, intake := Closed) else version
        case Reject => version.(intake := Closed)
        case Pause => if version.status == Published then version.(intake := Paused) else version
        case Resume =>
          if version.status == Published && version.intake == Paused && !MigrationPending(l, v) && OnlyOpen(l, v)
          then version.(intake := Open) else version
        case Compromise => version.(status := Compromised, intake := Closed);
      Put(l, v, changed)
  }

  // --------------------------------------------------------------------- runs

  datatype Step =
    | DoChallenge(challenge: nat, contract: Contract)
    | DoVersion(prior: nat, kind: Kind, contract: Contract)
    | DoPublish(v: nat)
    | DoComplete(v: nat)
    | DoAct(v: nat, action: Action)
    | DoAccept(v: nat, publish: bool)
    | DoValidate(v: nat, i: nat, verdict: Verdict, pause: bool)
    | DoIncident(v: nat, i: nat)
    | DoAdjudicate(v: nat)
    | DoPublicize(v: nat, i: nat)

  function Next(l: State, s: Step): State {
    match s
    case DoChallenge(challenge, c) => CreateChallenge(l, challenge, c)
    case DoVersion(prior, kind, c) => CreateVersion(l, prior, kind, c)
    case DoPublish(v) => Publish(l, v)
    case DoComplete(v) => CompleteMigration(l, v)
    case DoAct(v, a) => Act(l, v, a)
    case DoAccept(v, publish) => Accept(l, v, publish)
    case DoValidate(v, i, verdict, pause) => Validate(l, v, i, verdict, pause)
    case DoIncident(v, i) => Incident(l, v, i)
    case DoAdjudicate(v) => Adjudicate(l, v)
    case DoPublicize(v, i) => Publicize(l, v, i)
  }

  function Start(maximum: nat): State { State([], map[], map[], 0, maximum) }

  function Run(maximum: nat, steps: seq<Step>): State {
    if steps == [] then Start(maximum) else Next(Run(maximum, steps[..|steps| - 1]), steps[|steps| - 1])
  }
}
