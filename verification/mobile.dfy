/**
 A model of the small-screen predictions page: which of its three views is
 chosen from the two panel flags, and which subtree is then rendered.

 The panel flags and the predictions status come from the global store;
 here they are parameters.
 */
module Mobile {

  /** The three views of the small-screen page. */
  datatype PageView = Positions | History | Chart

  /** The predictions status; the page only asks whether it is Live. */
  datatype PredictionStatus = Live | Other(name: string)

  /** The subtrees the page body can render. */
  datatype Subtree = PositionsList | ErrorNotification | ChartPane | HistoryPane

  /** The view a subtree belongs to. */
  function ViewOf(s: Subtree): PageView {
    match s
    case PositionsList => Positions
    case ErrorNotification => Positions
    case ChartPane => Chart
    case HistoryPane => History
  }

  /** The view chosen from the panel flags: the history pane wins over the
      chart pane, and with neither open the positions are shown. */
  function GetView(isHistoryPaneOpen: bool, isChartPaneOpen: bool): (v: PageView)
    ensures v == History <==> isHistoryPaneOpen
    ensures v == Chart <==> !isHistoryPaneOpen && isChartPaneOpen
    ensures v == Positions <==> !isHistoryPaneOpen && !isChartPaneOpen
  {
    if isHistoryPaneOpen then History
    else if isChartPaneOpen then Chart
    else Positions
  }

  /** The page body for a view: one guarded subtree per view, the positions
      view further split on whether the status is Live. */
  function Render(view: PageView, status: PredictionStatus): (shown: seq<Subtree>)
    ensures |shown| == 1
    ensures ViewOf(shown[0]) == view
    ensures shown[0] == PositionsList <==> view == Positions && status == Live
    ensures shown[0] == ErrorNotification <==> view == Positions && status != Live
  {
    (if view == Positions then [if status == Live then PositionsList else ErrorNotification] else [])
    + (if view == Chart then [ChartPane] else [])
    + (if view == History then [HistoryPane] else [])
  }

  /** The page body for the panel flags and the status. */
  function MobilePage(isHistoryPaneOpen: bool, isChartPaneOpen: bool, status: PredictionStatus): (shown: seq<Subtree>)
    ensures |shown| == 1
    ensures isHistoryPaneOpen ==> shown == [HistoryPane]
    ensures !isHistoryPaneOpen && isChartPaneOpen ==> shown == [ChartPane]
    ensures !isHistoryPaneOpen && !isChartPaneOpen ==>
      shown == [if status == Live then PositionsList else ErrorNotification]
  {
    Render(GetView(isHistoryPaneOpen, isChartPaneOpen), status)
  }

  /** The chart is never shown while the history pane is open, whatever the
      chart flag says. */
  lemma HistoryHidesChart(isChartPaneOpen: bool, status: PredictionStatus)
    ensures GetView(true, isChartPaneOpen) == History
    ensures ChartPane !in MobilePage(true, isChartPaneOpen, status)
  {
  }

  /** Whether some setting of the panel flags chooses `v`. */
  ghost predicate ViewReachable(v: PageView) {
    exists h: bool, c: bool :: GetView(h, c) == v
  }

  /** Every view is chosen for some setting of the panel flags. */
  lemma EveryViewReachable()
    ensures forall v: PageView :: ViewReachable(v)
  {
    forall v: PageView
      ensures ViewReachable(v)
    {
      match v
      case History => assert GetView(true, false) == v;
      case Chart => assert GetView(false, true) == v;
      case Positions => assert GetView(false, false) == v;
    }
  }

  /** Whether some flags and status render exactly `s`. */
  ghost predicate SubtreeReachable(s: Subtree) {
    exists h: bool, c: bool, st: PredictionStatus :: MobilePage(h, c, st) == [s]
  }

  /** Every subtree is rendered for some flags and status, so none of the
      guarded branches is dead. */
  lemma EverySubtreeReachable()
    ensures forall s: Subtree :: SubtreeReachable(s)
  {
    forall s: Subtree
      ensures SubtreeReachable(s)
    {
      match s
      case PositionsList => assert MobilePage(false, false, Live) == [s];
      case ErrorNotification => assert MobilePage(false, false, Other("")) == [s];
      case ChartPane => assert MobilePage(false, true, Live) == [s];
      case HistoryPane => assert MobilePage(true, false, Live) == [s];
    }
  }
}
