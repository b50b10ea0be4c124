/**
 * The decision tables of components/agent-card.tsx: which badge variant and
 * icon a status or risk level gets, how profit is styled, and which action
 * buttons a card shows and what each of them reports back.
 */
module AgentCard {
  import opened Options
  import Utils

  /** The fields of an agent (lib/api.ts) that the card's logic reads. */
  datatype Agent = Agent(
    id: string,
    description: Option<string>,
    status: string,
    riskLevel: string,
    protocols: seq<string>,
    totalProfit: real)

  datatype Variant = Success | Warning | Secondary | Destructive | Defi

  datatype Icon = PlayIcon | PauseIcon | SquareIcon | ClockIcon

  /** The buttons of a card: the settings button and the three actions. */
  datatype Button = SettingsButton | StartButton | PauseButton | StopButton

  /** How the profit figure is coloured. */
  datatype ProfitStyle = Gain | Loss

  /** The card's four optional callback props. */
  datatype Handler = OnSettings | OnStart | OnPause | OnStop

  /** A call of one of the callbacks, with its argument. */
  datatype Call = Call(handler: Handler, agentId: string)

  /** All four callbacks passed. */
  const AllHandlers: set<Handler> := {OnSettings, OnStart, OnPause, OnStop}

  /** What the card shows, as far as the logic decides it. */
  datatype CardView = CardView(
    statusVariant: Variant,
    statusIcon: Icon,
    riskVariant: Variant,
    showsDescription: bool,
    profit: ProfitStyle,
    showsProtocols: bool,
    buttons: seq<Button>)

  /** The statuses for which the card offers Start. */
  const StartableStatuses: set<string> := {"created", "stopped", "paused"}

  /** `getStatusIcon`: a case-sensitive switch with Clock as default. */
  function StatusIcon(status: string): (r: Icon)
    ensures r == ClockIcon <==> status !in StatusIcons
  {
    match status
    case "active" => PlayIcon
    case "paused" => PauseIcon
    case "stopped" => SquareIcon
    case _ => ClockIcon
  }

  /** `getStatusVariant`: a case-sensitive switch with `defi` as default. */
  function StatusVariant(status: string): (r: Variant)
    ensures r == Defi <==> status !in StatusVariants
  {
    match status
    case "active" => Success
    case "paused" => Warning
    case "stopped" => Secondary
    case "error" => Destructive
    case _ => Defi
  }

  /** `getRiskVariant`: a case-sensitive switch with `secondary` as default. */
  function RiskVariant(risk: string): (r: Variant)
    ensures r == Secondary <==> risk !in RiskVariants
  {
    match risk
    case "low" => Success
    case "medium" => Warning
    case "high" => Destructive
    case _ => Secondary
  }

  /** The three switches as data tables with their defaults. */
  const StatusIcons: map<string, Icon> :=
    map["active" := PlayIcon, "paused" := PauseIcon, "stopped" := SquareIcon]
  const StatusVariants: map<string, Variant> :=
    map["active" := Success, "paused" := Warning, "stopped" := Secondary, "error" := Destructive]
  const RiskVariants: map<string, Variant> :=
    map["low" := Success, "medium" := Warning, "high" := Destructive]

  /** Each switch is a lookup in its table, falling back to its default. */
  lemma SwitchesAreTableLookups(status: string, risk: string)
    ensures StatusIcon(status) == if status in StatusIcons then StatusIcons[status] else ClockIcon
    ensures StatusVariant(status)
      == if status in StatusVariants then StatusVariants[status] else Defi
    ensures RiskVariant(risk) == if risk in RiskVariants then RiskVariants[risk] else Secondary
  {
  }

  /** Of the five statuses an agent can have, `created` and `error` share the clock icon. */
  lemma ClockIconStatuses(status: string)
    requires status in {"created", "active", "paused", "stopped", "error"}
    ensures StatusIcon(status) == ClockIcon <==> status == "created" || status == "error"
    ensures StatusVariant(status) == Defi <==> status == "created"
  {
  }

  /** The action buttons for a status: Start, or else Pause and Stop. */
  function ActionButtons(status: string): (r: seq<Button>)
    ensures StartButton in r <==> status in StartableStatuses
    ensures PauseButton in r <==> status !in StartableStatuses
    ensures StopButton in r <==> PauseButton in r
    ensures SettingsButton !in r
    ensures |r| == if status in StartableStatuses then 1 else 2
    ensures status !in StartableStatuses ==> r[0] == PauseButton
  {
    if status == "created" || status == "stopped" || status == "paused" then [StartButton]
    else [PauseButton, StopButton]
  }

  /** Start is never shown beside Pause or Stop, and one of them always is. */
  lemma StartExcludesPauseAndStop(status: string)
    ensures StartButton in ActionButtons(status)
      <==> PauseButton !in ActionButtons(status) && StopButton !in ActionButtons(status)
    ensures |ActionButtons(status)| > 0
  {
  }

  /** For the statuses `active` and `error` the card offers Pause and Stop. */
  lemma RunningAgentsArePausable()
    ensures ActionButtons("active") == ActionButtons("error") == [PauseButton, StopButton]
  {
  }

  /** The card as a function of the agent. */
  function Render(agent: Agent): (v: CardView)
    ensures v.profit == Gain <==> agent.totalProfit > 0.0
    ensures v.showsProtocols <==> agent.protocols != []
    ensures v.showsDescription <==> agent.description.Some? && agent.description.value != ""
    ensures |v.buttons| > 1 && v.buttons[0] == SettingsButton
    ensures v.buttons[1..] == ActionButtons(agent.status)
    ensures v.statusVariant == StatusVariant(agent.status) && v.statusIcon == StatusIcon(agent.status)
    ensures v.riskVariant == RiskVariant(agent.riskLevel)
  {
    CardView(
      StatusVariant(agent.status),
      StatusIcon(agent.status),
      RiskVariant(agent.riskLevel),
      agent.description.Some? && agent.description.value != "",
      if agent.totalProfit > 0.0 then Gain else Loss,
      |agent.protocols| > 0,
      [SettingsButton] + ActionButtons(agent.status))
  }

  /** A profit of exactly zero is styled as a loss. */
  lemma ZeroProfitIsLoss(agent: Agent)
    requires agent.totalProfit == 0.0
    ensures Render(agent).profit == Loss
  {
  }

  /**
   * The `onClick` of a shown button, given which callbacks the parent passed:
   * the settings button calls `onSettings`, Start `onStart`, Pause `onPause`
   * and Stop `onStop`, each with the agent's id, and `?.` makes a missing
   * callback a no-op.
   */
  function Press(agent: Agent, button: Button, passed: set<Handler>): (r: Option<Call>)
    requires button in Render(agent).buttons
    ensures r.Some? ==> r.value.agentId == agent.id && r.value.handler in passed
    ensures r.Some? && r.value.handler == OnStart ==> agent.status in StartableStatuses
    ensures r.Some? && r.value.handler in {OnPause, OnStop} ==> agent.status !in StartableStatuses
    ensures r.Some? && r.value.handler == OnSettings <==> button == SettingsButton && OnSettings in passed
    ensures passed == AllHandlers ==> r.Some?
    ensures button == SettingsButton ==> r == if OnSettings in passed then Some(Call(OnSettings, agent.id)) else None
    ensures button == StartButton ==> r == if OnStart in passed then Some(Call(OnStart, agent.id)) else None
    ensures button == PauseButton ==> r == if OnPause in passed then Some(Call(OnPause, agent.id)) else None
    ensures button == StopButton ==> r == if OnStop in passed then Some(Call(OnStop, agent.id)) else None
  {
    var handler := match button
      case SettingsButton => OnSettings
      case StartButton => OnStart
      case PauseButton => OnPause
      case StopButton => OnStop;
    if handler in passed then Some(Call(handler, agent.id)) else None
  }

  /**
   * With every callback passed, each shown button calls a callback with the
   * agent's id, no two shown buttons call the same one, and the callbacks
   * reachable from a card are settings and start for a startable status,
   * settings, pause and stop otherwise.
   */
  lemma EveryCallbackGetsTheId(agent: Agent)
    ensures forall b :: b in Render(agent).buttons ==>
      Press(agent, b, AllHandlers).Some? && Press(agent, b, AllHandlers).value.agentId == agent.id
    ensures forall b1, b2 :: b1 in Render(agent).buttons && b2 in Render(agent).buttons && b1 != b2 ==>
      Press(agent, b1, AllHandlers) != Press(agent, b2, AllHandlers)
    ensures (set b | b in Render(agent).buttons :: Press(agent, b, AllHandlers).value.handler)
      == if agent.status in StartableStatuses then {OnSettings, OnStart} else {OnSettings, OnPause, OnStop}
  {
    var v := Render(agent);
    assert v.buttons == [SettingsButton] + v.buttons[1..];
    var reached := set b | b in v.buttons :: Press(agent, b, AllHandlers).value.handler;
    if agent.status in StartableStatuses {
      assert v.buttons == [SettingsButton, StartButton];
      assert Press(agent, SettingsButton, AllHandlers).value.handler == OnSettings;
      assert Press(agent, StartButton, AllHandlers).value.handler == OnStart;
      assert reached == {OnSettings, OnStart};
    } else {
      assert v.buttons == [SettingsButton, PauseButton, StopButton];
      assert Press(agent, SettingsButton, AllHandlers).value.handler == OnSettings;
      assert Press(agent, PauseButton, AllHandlers).value.handler == OnPause;
      assert Press(agent, StopButton, AllHandlers).value.handler == OnStop;
      assert reached == {OnSettings, OnPause, OnStop};
    }
  }

  /** A card whose parent passes no `onStart` does nothing when Start is pressed. */
  lemma MissingCallbackIsNoOp(agent: Agent)
    requires agent.status in StartableStatuses
    ensures Press(agent, StartButton, AllHandlers - {OnStart}) == None
  {
    assert Render(agent).buttons == [SettingsButton, StartButton];
  }

  /**
   * The badge variants are case-sensitive whereas the colour helpers of
   * lib/utils.ts are not: a capitalised "Active" gets the default badge
   * variant but the success colour.
   */
  lemma BadgeIsCaseSensitive()
    ensures StatusVariant("Active") == Defi
    ensures StatusVariant("active") == Success
    ensures Utils.GetStatusColor("Active") == Utils.GetStatusColor("active") == Utils.SuccessColor
  {
    assert Utils.Lower("Active") == "active";
    Utils.ColorsOfLowerWord("active");
    Utils.ColorsIgnoreCase("Active", "active");
  }
}
