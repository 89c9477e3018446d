/**
 * Things every example shares: the C integer widths the globals are declared with,
 * the fail-stop `while(1);` as a terminal phase, and the three vendor-driver checks
 * (configuration lookup, CfgInitialize, SelfTest) that each Init* routine performs
 * before it touches a peripheral.
 */
module Platform {

  type u8 = x: int | 0 <= x < 0x100
  type u16 = x: int | 0 <= x < 0x1_0000
  type u32 = x: int | 0 <= x < 0x1_0000_0000

  /** The vendor status code for success; every other value is a failure. */
  const XST_SUCCESS: int := 0

  datatype Option<T> = None | Some(value: T)

  /** Why an example stopped in one of its `while(1);` loops. */
  datatype Fault =
    | ConfigNotFound
    | InitFailed
    | SelfTestFailed
    | OptionsRejected
    | SolverSentinel
    | ZeroInterval
    | ZeroMatchValue
    | MatchReadBack
    | HandlerRejected
    | DmaStartFailed
    | DmaFault
    | DataMismatch
    | UartInitFailed
    | GpioInitFailed

  /** A program either still runs or spins forever in a fail-stop loop. */
  datatype Phase = Running | Halted(why: Fault)

  /** What the vendor driver answered while one peripheral was brought up. */
  datatype DriverReport = DriverReport(configFound: bool, initStatus: int, selfTestStatus: int)

  /**
   * The outcome of the lookup / CfgInitialize / SelfTest prologue: the first check
   * that fails decides the fault, and the prologue passes only when all three do.
   */
  function BringUp(r: DriverReport): (f: Option<Fault>)
    ensures f.None? <==> r.configFound && r.initStatus == XST_SUCCESS && r.selfTestStatus == XST_SUCCESS
    ensures f == Some(ConfigNotFound) <==> !r.configFound
    ensures f == Some(InitFailed) <==> r.configFound && r.initStatus != XST_SUCCESS
    ensures f == Some(SelfTestFailed) <==>
      r.configFound && r.initStatus == XST_SUCCESS && r.selfTestStatus != XST_SUCCESS
  {
    if !r.configFound then Some(ConfigNotFound)
    else if r.initStatus != XST_SUCCESS then Some(InitFailed)
    else if r.selfTestStatus != XST_SUCCESS then Some(SelfTestFailed)
    else None
  }
}
