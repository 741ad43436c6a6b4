/** The server-connection card of the home screen
    (src/screens/Home/index.tsx): the status a health check leaves behind and
    the colour and text that show it. */
module ServerStatus {

  datatype Status = Loading | Connected | Disconnected

  const Green: string := "#4CAF50"
  const Red: string := "#F44336"
  const Orange: string := "#FF9800"

  /** `getServerStatusColor`. */
  function StatusColor(s: Status): (c: string)
    ensures c in {Green, Red, Orange}
    ensures c == Green <==> s == Connected
    ensures c == Red <==> s == Disconnected
  {
    match s
    case Connected => Green
    case Disconnected => Red
    case Loading => Orange
  }

  /** `getServerStatusText`. */
  function StatusText(s: Status): (t: string)
    ensures t == "서버 연결됨" <==> s == Connected
    ensures t == "서버 연결 실패" <==> s == Disconnected
    ensures t == "연결 확인 중..." <==> s == Loading
  {
    match s
    case Connected => "서버 연결됨"
    case Disconnected => "서버 연결 실패"
    case Loading => "연결 확인 중..."
  }

  /** The card shows each status differently: colour and text each
      determine the status. */
  lemma StatusDisplayInjective(s: Status, t: Status)
    requires StatusColor(s) == StatusColor(t) || StatusText(s) == StatusText(t)
    ensures s == t
  {
  }

  /** The card's state: the status and the time of the last finished
      check (`""` before the first one). */
  datatype Card = Card(status: Status, lastCheckTime: string)

  /** `checkServerConnection`, as the two states it passes through: first
      the status goes to loading, then, once the health check succeeds or
      throws, to connected or disconnected with the locale time `now`
      recorded either way. */
  function CheckServerConnection(c: Card, healthy: bool, now: string): (trace: seq<Card>)
    ensures |trace| == 2
    ensures trace[0] == c.(status := Loading)
    ensures trace[1].lastCheckTime == now
    ensures trace[1].status == Connected <==> healthy
    ensures trace[1].status != Loading
  {
    var checking := c.(status := Loading);
    [checking, Card(if healthy then Connected else Disconnected, now)]
  }

  /** Every check ends in a settled status shown in green or red, never
      orange, whatever the state before it. */
  lemma CheckSettles(c: Card, healthy: bool, now: string)
    ensures StatusColor(CheckServerConnection(c, healthy, now)[1].status) == (if healthy then Green else Red)
    ensures StatusColor(CheckServerConnection(c, healthy, now)[0].status) == Orange
  {
  }
}
