/*
 * The building model and the result-file records of src/core/types.ts.
 *
 * Every numeric field is a `real`; layers and story counts are numbers in
 * Twist-Dynamics too, and whether they are integers is checked by the
 * validators. A wall's `pos` is a pair of points in the TypeScript type, so
 * it is a pair of fields here.
 */
module Building {
  import opened Results

  datatype Point = Point(x: real, y: real)

  datatype StructType = R | DX

  datatype Direction = X | Y

  /** The name of a direction as the files write it. */
  function DirectionText(d: Direction): string
  {
    if d == X then "X" else "Y"
  }

  datatype StructInfo = StructInfo(
    massN: real,
    sType: StructType,
    zLevel: seq<real>,
    weight: seq<real>,
    wMoment: seq<real>,
    wCenter: seq<Point>)

  datatype Floor = Floor(layer: real, pos: seq<Point>)

  datatype Column = Column(layer: real, pos: Point, kx: real, ky: real)

  datatype WallChara = WallChara(
    name: string,
    k: real,
    h: real,
    c: real,
    isEigenEffectK: bool,
    isKCUnitChara: bool,
    memo: string)

  datatype Wall = Wall(name: string, layer: real, start: Point, end: Point, isVisible: bool)

  datatype MassDamper = MassDamper(
    name: string,
    layer: real,
    pos: Point,
    weight: real,
    freq: Point,
    h: Point)

  datatype BraceDamper = BraceDamper(
    layer: real,
    pos: Point,
    direct: Direction,
    k: real,
    c: real,
    width: real,
    height: real,
    isLightPos: bool,
    isEigenEffectK: bool)

  datatype DXPanel = DXPanel(layer: real, direct: Direction, pos: seq<Point>, k: real)

  datatype BuildingModel = BuildingModel(
    structInfo: Option<StructInfo>,
    floors: seq<Floor>,
    columns: seq<Column>,
    wallCharaDB: seq<WallChara>,
    walls: seq<Wall>,
    massDampers: seq<MassDamper>,
    braceDampers: seq<BraceDamper>,
    dxPanels: seq<DXPanel>)

  /** A model with no structure information and no elements. */
  const EmptyModel := BuildingModel(None, [], [], [], [], [], [], [])

  // Sort keys: every element list is ordered by layer.
  function FloorLayer(f: Floor): real { f.layer }
  function ColumnLayer(c: Column): real { c.layer }
  function WallLayer(w: Wall): real { w.layer }
  function MassDamperLayer(d: MassDamper): real { d.layer }
  function BraceDamperLayer(d: BraceDamper): real { d.layer }
  function PanelLayer(p: DXPanel): real { p.layer }

  datatype MassCenter = MassCenter(layer: real, x: real, y: real)

  datatype BaseShapeInfo = BaseShapeInfo(story: Option<real>, zLevel: seq<real>, massCenters: seq<MassCenter>)

  datatype EigenRow = EigenRow(rowLabel: string, values: seq<real>)

  datatype ModalResult = ModalResult(
    frequenciesHz: seq<real>,
    participationFactorX: seq<real>,
    participationFactorY: seq<real>,
    effectiveMassRatioX: seq<real>,
    effectiveMassRatioY: seq<real>,
    eigenVectors: seq<EigenRow>)

  datatype ModalDatFile = ModalDatFile(baseShape: BaseShapeInfo, modal: ModalResult)

  datatype ComplexModeVector = ComplexModeVector(
    component: string,
    amplitude: real,
    phaseRad: real,
    complexReal: Option<real>,
    complexImag: Option<real>)

  datatype ComplexMode = ComplexMode(
    mode: real,
    frequencyHz: real,
    dampingRatioPercent: real,
    eigenValueReal: Option<real>,
    eigenValueImag: Option<real>,
    vectors: seq<ComplexModeVector>)

  datatype ComplexModalFile = ComplexModalFile(baseShape: BaseShapeInfo, modes: seq<ComplexMode>)

  datatype RespMeta = RespMeta(massCount: real, dt: real, damperCount: real)

  datatype RespFile = RespFile(
    baseShape: BaseShapeInfo,
    meta: RespMeta,
    header: seq<string>,
    records: seq<seq<real>>,
    columnMaxAbs: seq<real>)
}
