/** The "MCP Shark" tree view: the root items it lists and the tree item shown for each, both
    decided by one remembered reachability flag. */
module TrafficTree {
  import opened Wrappers
  import opened Host
  import Constants
  import Lifecycle

  /** A tree element; `caption` is its `label`. An empty string stands for a field that is absent
      or falsy. */
  datatype Element = Element(caption: string, command: string, icon: string, tooltip: string, contextValue: string)

  /** The command a tree item runs when clicked, with its title. */
  datatype CommandRef = CommandRef(command: string, title: string)

  /** What the editor is given for an element: the "Loading..." placeholder, or an item. */
  datatype TreeItem =
    | Loading
    | Item(caption: string, command: Option<CommandRef>, description: Option<string>,
           icon: string, tooltip: string, contextValue: string)

  const NotRunningText: string := "Server not running"
  const DefaultIcon: string := "circle-outline"
  const DefaultContextValue: string := "trafficItem"

  /** Icon keys the provider renames; any other key is used as the icon name itself. */
  const IconMap: map<string, string> :=
    map["database" := "database", "graph" := "graph", "network" := "radio-tower",
        "refresh" := "refresh", "play" := "play", "stop-circle" := "stop-circle"]

  const StartItem: Element :=
    Element("Start MCP Shark Server", Constants.StartServerId, "play", "Start the MCP Shark server", "startServer")
  const OpenItem: Element :=
    Element("Open Traffic Inspector", Constants.OpenInspectorId, "network", "Open the MCP Shark Traffic Inspector panel", "openInspector")
  const StopItem: Element :=
    Element("Stop MCP Shark Server", Constants.StopServerId, "stop-circle", "Stop the MCP Shark server", "stopServer")
  const OpenDisabledItem: Element :=
    Element("Open Traffic Inspector", Constants.OpenInspectorId, "network", "MCP Shark server must be running first", "openInspectorDisabled")

  /** The children of `element` (`None`: the root), given the remembered flag. */
  function Children(running: bool, element: Option<Element>): seq<Element> {
    if element.Some? then []
    else if running then [StartItem, OpenItem, StopItem]
    else [StartItem, OpenDisabledItem]
  }

  function IconName(icon: string): string {
    if icon == "" then DefaultIcon else if icon in IconMap then IconMap[icon] else icon
  }

  function OrElse(s: string, fallback: string): string {
    if s == "" then fallback else s
  }

  /** `getTreeItem` given the remembered flag. */
  function ItemFor(running: bool, element: Option<Element>): TreeItem {
    if element.None? || element.value.caption == "" then Loading
    else
      var e := element.value;
      var disabled := !running && e.command != Constants.StartServerId;
      Item(e.caption,
           if disabled || e.command == "" then None else Some(CommandRef(e.command, e.caption)),
           if disabled then Some(NotRunningText) else None,
           IconName(e.icon), OrElse(e.tooltip, e.caption), OrElse(e.contextValue, DefaultContextValue))
  }

  /** The root always starts with the start item; a running server adds the inspector and stop
      items, a stopped one only the disabled inspector item. Nothing else has children. */
  lemma ChildrenShape(running: bool, element: Option<Element>)
    ensures element.Some? ==> Children(running, element) == []
    ensures var root := Children(running, None);
            && root[0] == StartItem
            && |root| == (if running then 3 else 2)
            && (StopItem in root <==> running)
            && (forall i :: 0 <= i < |root| ==> root[i].command != Constants.StopServerId || running)
  {
  }

  /** With the server stopped, every item but the one running the start command is shown
      without a command and described as "Server not running"; the start item keeps its
      command. With the server running, an item with a command runs it, titled by its caption. */
  lemma ItemGuards(running: bool, e: Element)
    requires e.caption != ""
    ensures var item := ItemFor(running, Some(e));
            && item.Item? && item.caption == e.caption
            && (!running && e.command != Constants.StartServerId ==>
                  item.command == None && item.description == Some(NotRunningText))
            && (running || e.command == Constants.StartServerId ==>
                  item.description == None
                  && (item.command.Some? <==> e.command != "")
                  && (e.command != "" ==> item.command == Some(CommandRef(e.command, e.caption))))
  {
  }

  /** An element that is missing or has no caption is the "Loading..." placeholder. */
  lemma LoadingIff(running: bool, element: Option<Element>)
    ensures ItemFor(running, element).Loading? <==> element.None? || element.value.caption == ""
  {
  }

  /** The icon is the mapped name when the key is in the map and the key itself otherwise;
      "circle-outline" without one. The tooltip falls back to the caption and the context value
      to "trafficItem". */
  lemma ItemDefaults(running: bool, e: Element)
    requires e.caption != ""
    ensures var item := ItemFor(running, Some(e));
            && (e.icon == "" ==> item.icon == DefaultIcon)
            && (e.icon in IconMap ==> item.icon == IconMap[e.icon])
            && (e.icon == "network" ==> item.icon == "radio-tower")
            && (e.icon != "" && e.icon !in IconMap ==> item.icon == e.icon)
            && (e.tooltip == "" ==> item.tooltip == e.caption)
            && (e.tooltip != "" ==> item.tooltip == e.tooltip)
            && (e.contextValue == "" ==> item.contextValue == DefaultContextValue)
            && (e.contextValue != "" ==> item.contextValue == e.contextValue)
  {
  }

  /** The tree as the editor shows it while the server is stopped: only the first root item,
      the start item, is clickable. */
  lemma {:induction false} StoppedTreeOnlyStarts()
    ensures var root := Children(false, None);
            forall i :: 0 <= i < |root| ==>
              (ItemFor(false, Some(root[i])).command.Some? <==> i == 0)
  {
    var root := Children(false, None);
    assert root == [StartItem, OpenDisabledItem];
    assert ItemFor(false, Some(StartItem)).command == Some(CommandRef(Constants.StartServerId, StartItem.caption));
    assert ItemFor(false, Some(OpenDisabledItem)).command == None;
  }

  /** `TrafficInspectorProvider`: the remembered reachability and the refreshes it fired. */
  class TrafficInspectorProvider {
    var isServerRunning: bool
    /** How many times `onDidChangeTreeData` has fired. */
    var refreshes: nat

    constructor ()
      ensures !isServerRunning && refreshes == 0
    {
      isServerRunning := false;
      refreshes := 0;
    }

    method Refresh()
      modifies this`refreshes
      ensures refreshes == old(refreshes) + 1
    {
      refreshes := refreshes + 1;
    }

    /** `updateServerStatus`: remember one probe's answer, then fire a refresh. */
    method UpdateServerStatus(host: Host, lc: Lifecycle.Lifecycle)
      modifies this, host`probes, host`log
      ensures isServerRunning == Lifecycle.Reachable(Lifecycle.ProbeAt(old(host.probes), 0))
      ensures refreshes == old(refreshes) + 1
      ensures host.probes == Drop(old(host.probes), 1)
      ensures host.log == old(host.log) + [Lifecycle.ProbeEffect]
    {
      isServerRunning := lc.IsRunning(host);
      Refresh();
    }

    /** `getChildren`: built by pushing onto the start item. */
    method GetChildren(element: Option<Element>) returns (items: seq<Element>)
      ensures items == Children(isServerRunning, element)
    {
      if element.Some? {
        return [];
      }
      items := [StartItem];
      if isServerRunning {
        items := items + [OpenItem, StopItem];
      } else {
        items := items + [OpenDisabledItem];
      }
    }

    function GetTreeItem(element: Option<Element>): (item: TreeItem)
      reads this
      ensures item.Item? ==> element.Some? && item.caption == element.value.caption
      ensures item.Item? && item.description.Some? ==> !isServerRunning && item.command.None?
    {
      ItemFor(isServerRunning, element)
    }
  }
}
