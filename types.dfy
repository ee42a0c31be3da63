/** The records of market-mirror/lib/type.ts, as values. */
module Types {

  datatype Option<+T> = None | Some(value: T)

  datatype TradeAction = Buy | Sell

  /** The pre-assigned label of a trade. */
  datatype TradeType = Emotional | Rational

  /** One executed action of a replayed session. */
  datatype Trade = Trade(
    time: string,
    action: TradeAction,
    reason: string,
    profit: real,
    kind: TradeType,
    ticker: string)

  /** The closed set of bias labels a session can be given. */
  datatype Bias = Overtrading | LossAversion | Revenge | Mixed
  {
    /** The label as the application writes it. */
    function Name(): string
    {
      match this
      case Overtrading => "overtrading"
      case LossAversion => "loss_aversion"
      case Revenge => "revenge"
      case Mixed => "mixed"
    }
  }

  /** Reads a label back; `None` for any other text. */
  function BiasFromName(s: string): (b: Option<Bias>)
    ensures b.Some? ==> b.value.Name() == s
  {
    if s == "overtrading" then Some(Overtrading)
    else if s == "loss_aversion" then Some(LossAversion)
    else if s == "revenge" then Some(Revenge)
    else if s == "mixed" then Some(Mixed)
    else None
  }

  lemma BiasNameRoundTrip(b: Bias)
    ensures BiasFromName(b.Name()) == Some(b)
  {
  }

  /** A stored session record; the last three fields are optional. */
  datatype BehavioralSnapshot = BehavioralSnapshot(
    sessionId: string,
    timestamp: string,
    emotionalSelfScore: real,
    rationalSelfScore: real,
    disciplineDelta: real,
    dominantBias: Bias,
    tradeCountEmotional: nat,
    tradeCountRational: nat,
    marketCondition: Option<string>,
    sessionDurationMinutes: Option<real>,
    notes: Option<string>)

  /** One row of a trader's history, as read back. */
  datatype EvolutionDataPoint = EvolutionDataPoint(
    sessionNumber: nat,
    timestamp: string,
    emotionalScore: real,
    rationalScore: real,
    disciplineDelta: real,
    disciplineImprovement: Option<real>,
    dominantBias: Bias)
}
