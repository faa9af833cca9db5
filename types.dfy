/** The records of src/types.ts, plus the two small wrappers the rest of the model uses. */
module Types {

  /** An optional value: `None` stands for JavaScript's `undefined`. */
  datatype Option<+T> = None | Some(value: T) {
    function GetOr(default: T): T {
      match this
      case Some(v) => v
      case None => default
    }
  }

  /** One field of a `Partial<…>` update: `Keep` when the key is absent, `Set(v)` when present. */
  datatype Patch<+T> = Keep | Set(value: T) {
    function Apply(current: T): T {
      match this
      case Keep => current
      case Set(v) => v
    }
  }

  // --- Assets ---

  datatype AssetType = Personnel | Facilities | Materiel | Operations | Activities | Information
                     | Server | Database | IoT | Workstation | Network
  datatype AssetCriticality = Low | Medium | High | Critical
  datatype AssetStatus = Active | Maintenance | Offline

  datatype Asset = Asset(
    id: string,
    name: string,
    assetType: AssetType,
    location: string,
    owner: string,
    criticality: AssetCriticality,
    status: AssetStatus,
    lastUpdated: string,
    parentAsset: Option<string>,
    ipAddress: Option<string>)

  // --- FAIR factors ---

  /** A three-point (min / most likely / max) triangular estimate. */
  datatype Distribution = Distribution(min: real, mostLikely: real, max: real)

  /** `number | Distribution | undefined`. */
  datatype Factor = Absent | Scalar(v: real) | Dist(d: Distribution)

  datatype FAIRFactors = FAIRFactors(
    attemptCheckFrequency: Factor,
    threatCapability: Factor,
    resistanceStrength: Factor,
    vulnerability: Option<real>,
    primaryLoss: Factor,
    secondaryLoss: Factor,
    ale: Option<real>)

  // --- Bowtie graph ---

  datatype BarrierType = Preventive | Detective | Mitigative

  /** The `type` discriminant of a BowtieNode. */
  datatype NodeKind = Threat | BarrierKind | TopEvent | Consequence

  /** `label` is a reserved word in Dafny, hence `labelText`. */
  datatype BowtieNode = BowtieNode(
    id: string,
    kind: NodeKind,
    labelText: string,
    description: Option<string>,
    mitreAttackId: Option<string>,
    mitreTechniqueName: Option<string>,
    mitreUrl: Option<string>)

  /** A Barrier extends BowtieNode: `node` holds the inherited fields. */
  datatype Barrier = Barrier(
    node: BowtieNode,
    barrierType: BarrierType,
    parentId: string,
    efficacy: real,
    cost: Option<real>,
    active: bool,
    d3fendId: Option<string>,
    d3fendName: Option<string>,
    d3fendUrl: Option<string>)
  {
    function id(): string { node.id }
  }

  datatype Status = Draft | Review | Approved

  datatype RiskAssessment = RiskAssessment(
    id: string,
    assetId: string,
    title: string,
    status: Status,
    threats: seq<BowtieNode>,
    consequences: seq<BowtieNode>,
    barriers: seq<Barrier>,
    topEvent: BowtieNode,
    fairData: FAIRFactors,
    lastUpdated: string)
}
