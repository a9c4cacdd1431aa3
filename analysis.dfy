/** The live-analysis page: five percentage metrics and a candle reading,
    both overwritten by a two-second tick, and the threshold rules that turn
    them into progress-bar colours, card glows, the sentiment split, the
    outlook and the forecast. */
module Analysis {
  import opened Draws

  datatype LiveData = LiveData(volume: int, momentum: int, support: int, resistance: int, sentiment: int)

  datatype CandleAnalysis = CandleAnalysis(pattern: string, strength: string, direction: string)

  const InitialLiveData: LiveData := LiveData(85, 67, 72, 45, 78)

  const Rising: string := "صاعد"
  const Falling: string := "هابط"
  const Sideways: string := "جانبي"

  const Patterns: seq<string> := ["Doji", "Hammer", "Engulfing", "Shooting Star"]
  const Strengths: seq<string> := ["قوي", "متوسط", "ضعيف"]
  const Directions: seq<string> := [Rising, Falling, Sideways]

  const InitialCandle: CandleAnalysis := CandleAnalysis("Doji", "قوي", Rising)

  /** A percentage the tick can produce: `Math.floor(Math.random() * 100)`. */
  predicate IsPercent(v: int) {
    0 <= v <= 99
  }

  predicate ValidLiveData(d: LiveData) {
    IsPercent(d.volume) && IsPercent(d.momentum) && IsPercent(d.support)
    && IsPercent(d.resistance) && IsPercent(d.sentiment)
  }

  predicate ValidCandle(c: CandleAnalysis) {
    c.pattern in Patterns && c.strength in Strengths && c.direction in Directions
  }

  /** The metrics a tick draws. */
  function DrawLiveData(rVolume: real, rMomentum: real, rSupport: real,
                        rResistance: real, rSentiment: real): (d: LiveData)
    requires IsDraw(rVolume) && IsDraw(rMomentum) && IsDraw(rSupport)
    requires IsDraw(rResistance) && IsDraw(rSentiment)
    ensures ValidLiveData(d)
    ensures d.volume as real <= rVolume * 100.0 < d.volume as real + 1.0
    ensures d.momentum as real <= rMomentum * 100.0 < d.momentum as real + 1.0
    ensures d.support as real <= rSupport * 100.0 < d.support as real + 1.0
    ensures d.resistance as real <= rResistance * 100.0 < d.resistance as real + 1.0
    ensures d.sentiment as real <= rSentiment * 100.0 < d.sentiment as real + 1.0
  {
    LiveData(ScaledFloor(rVolume, 100), ScaledFloor(rMomentum, 100), ScaledFloor(rSupport, 100),
             ScaledFloor(rResistance, 100), ScaledFloor(rSentiment, 100))
  }

  /** The candle reading a tick draws. */
  function DrawCandle(rPattern: real, rStrength: real, rDirection: real): (c: CandleAnalysis)
    requires IsDraw(rPattern) && IsDraw(rStrength) && IsDraw(rDirection)
    ensures ValidCandle(c)
  {
    CandleAnalysis(Patterns[ScaledFloor(rPattern, |Patterns|)],
                   Strengths[ScaledFloor(rStrength, |Strengths|)],
                   Directions[ScaledFloor(rDirection, |Directions|)])
  }

  /** `getProgressColor`: green from 70, yellow from 40, pink below. */
  function ProgressColor(v: int): (c: string)
    ensures c == "bg-neon-green" <==> v >= 70
    ensures c == "bg-yellow-400" <==> 40 <= v < 70
    ensures c == "bg-neon-pink" <==> v < 40
  {
    if v >= 70 then "bg-neon-green" else if v >= 40 then "bg-yellow-400" else "bg-neon-pink"
  }

  /** The glow of the four metric cards, on the same thresholds. */
  function GlowColor(v: int): (c: string)
    ensures c == "green" <==> v >= 70
    ensures c == "purple" <==> 40 <= v < 70
    ensures c == "pink" <==> v < 40
  {
    if v >= 70 then "green" else if v >= 40 then "purple" else "pink"
  }

  /** The rank of a progress colour, weakest band first. */
  function ColorRank(c: string): nat {
    if c == "bg-neon-pink" then 0 else if c == "bg-yellow-400" then 1 else 2
  }

  /** The bands are ordered: a larger value never gets a weaker colour. */
  lemma ProgressColorMonotone(v: int, w: int)
    requires v <= w
    ensures ColorRank(ProgressColor(v)) <= ColorRank(ProgressColor(w))
  {
  }

  /** The glow and the progress bar always fall in the same band. */
  lemma GlowMatchesProgressColor(v: int)
    ensures GlowColor(v) == "green" <==> ProgressColor(v) == "bg-neon-green"
    ensures GlowColor(v) == "purple" <==> ProgressColor(v) == "bg-yellow-400"
    ensures GlowColor(v) == "pink" <==> ProgressColor(v) == "bg-neon-pink"
  {
  }

  /** The negative sentiment shown beside the positive one. */
  function NegativeSentiment(sentiment: int): (n: int)
    ensures sentiment + n == 100
    ensures IsPercent(sentiment) ==> 1 <= n <= 100
  {
    100 - sentiment
  }

  const Optimistic: string := "متفائل"
  const Neutral: string := "محايد"
  const Pessimistic: string := "متشائم"

  /** The overall outlook: optimistic from 60, neutral from 40, else pessimistic. */
  function Outlook(sentiment: int): (o: string)
    ensures o == Optimistic <==> sentiment >= 60
    ensures o == Neutral <==> 40 <= sentiment < 60
    ensures o == Pessimistic <==> sentiment < 40
  {
    if sentiment >= 60 then Optimistic else if sentiment >= 40 then Neutral else Pessimistic
  }

  /** The forecast sentence's direction word. */
  const Rise: string := "صعود"
  const Fall: string := "هبوط"
  const SidewaysMove: string := "حركة جانبية"

  function Forecast(direction: string): (f: string)
    ensures f == Rise <==> direction == Rising
    ensures f == Fall <==> direction == Falling
    ensures f == SidewaysMove <==> direction != Rising && direction != Falling
  {
    if direction == Rising then Rise else if direction == Falling then Fall else SidewaysMove
  }

  /** The colour of the direction label. */
  function DirectionColor(direction: string): (c: string)
    ensures c == "text-neon-green" <==> direction == Rising
    ensures c == "text-neon-pink" <==> direction == Falling
    ensures c == "text-gray-400" <==> direction != Rising && direction != Falling
  {
    if direction == Rising then "text-neon-green"
    else if direction == Falling then "text-neon-pink"
    else "text-gray-400"
  }

  /** The label colour and the forecast split the directions the same way. */
  lemma ColorMatchesForecast(direction: string)
    ensures DirectionColor(direction) == "text-neon-green" <==> Forecast(direction) == Rise
    ensures DirectionColor(direction) == "text-neon-pink" <==> Forecast(direction) == Fall
    ensures DirectionColor(direction) == "text-gray-400" <==> Forecast(direction) == SidewaysMove
  {
  }

  /** The page's state, both fields replaced on every tick. */
  class AnalysisPage {
    var liveData: LiveData
    var candleAnalysis: CandleAnalysis

    ghost predicate Valid()
      reads this
    {
      ValidLiveData(liveData) && ValidCandle(candleAnalysis)
    }

    constructor ()
      ensures Valid()
      ensures liveData == InitialLiveData && candleAnalysis == InitialCandle
    {
      liveData := InitialLiveData;
      candleAnalysis := InitialCandle;
    }

    /** The two-second interval callback, with its eight draws injected. */
    method Tick(rVolume: real, rMomentum: real, rSupport: real, rResistance: real, rSentiment: real,
                rPattern: real, rStrength: real, rDirection: real)
      requires IsDraw(rVolume) && IsDraw(rMomentum) && IsDraw(rSupport)
      requires IsDraw(rResistance) && IsDraw(rSentiment)
      requires IsDraw(rPattern) && IsDraw(rStrength) && IsDraw(rDirection)
      modifies this
      ensures Valid()
      ensures liveData == DrawLiveData(rVolume, rMomentum, rSupport, rResistance, rSentiment)
      ensures candleAnalysis == DrawCandle(rPattern, rStrength, rDirection)
      ensures liveData.sentiment + NegativeSentiment(liveData.sentiment) == 100
    {
      liveData := DrawLiveData(rVolume, rMomentum, rSupport, rResistance, rSentiment);
      candleAnalysis := DrawCandle(rPattern, rStrength, rDirection);
    }
  }
}
