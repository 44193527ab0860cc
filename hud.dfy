/** What the menu builder hands to the host HUD: groups and actions, and the
    `addGroup`/`addActions` calls that carry them. Tooltips are kept as
    structured lines rather than HTML. */
module Hud {
  import opened Js

  /** A tooltip value: a number, text, or a "value/max" pair. */
  datatype Value = Num(n: int) | Text(s: string) | Ratio(value: int, max: int)

  /** One tooltip line: "caption: value", or a free-text line. */
  datatype Line = Field(caption: string, value: Value) | Note(text: string)

  datatype Tooltip = Tooltip(title: string, lines: seq<Line>)

  /** `system: { actionType, actionId }`, the payload the host encodes and hands back on click. */
  datatype Payload = Payload(actionType: string, actionId: string)

  /** `info1 = { class: "tah-spotlight", text }`: the initiative badge. */
  datatype Badge = Badge(text: Option<int>)

  datatype Action = Action(
    id: string,
    name: string,
    tooltip: Option<Tooltip>,
    img: Option<string>,
    cssClass: Option<string>,
    listName: Option<string>,
    info1: Option<Badge>,
    system: Payload)

  /** `{ id, name, type: "system" }`. */
  datatype Group = Group(id: string, name: string)

  /** One call into the host: `addGroup(group, { id: parent })` or `addActions(actions, group)`. */
  datatype HostCall =
    | AddGroup(group: Group, parent: string)
    | AddActions(actions: seq<Action>, target: Group)
  {
    function GroupId(): string {
      match this
      case AddGroup(g, _) => g.id
      case AddActions(_, g) => g.id
    }
  }

  /** An action with only id, name and payload. */
  function PlainAction(id: string, name: string, system: Payload): Action {
    Action(id, name, None, None, None, None, None, system)
  }

  /** An action with a tooltip. */
  function TooltipAction(id: string, name: string, tooltip: Tooltip, system: Payload): Action {
    Action(id, name, Some(tooltip), None, None, None, None, system)
  }

  /** An item action: tooltip and image. */
  function ItemAction(id: string, name: string, tooltip: Tooltip, img: string, system: Payload): Action {
    Action(id, name, Some(tooltip), Some(img), None, None, None, system)
  }

  /** The two calls that add a group under `parent` and fill it. */
  function GroupCalls(group: Group, parent: string, actions: seq<Action>): seq<HostCall> {
    [AddGroup(group, parent), AddActions(actions, group)]
  }
}
