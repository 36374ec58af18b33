/**
 * Creating nodes: the id allocator, the three per-type tables (renderer kind,
 * default label, starter data) and `addNode`, which appends one node built
 * from defaults, the type's starter data and the caller's overrides.
 */
module NodeManager {

  import opened Opt
  import opened Types

  /**
   * What the starter data reads from the clock, as ISO 8601 text: now, three
   * days from now and the same time next week.
   */
  datatype Clock = Clock(now: string, inThreeDays: string, nextWeek: string)

  // ---- ids: the decimal text of a count ----

  function Digit(d: nat): char
    requires d < 10
  {
    (48 + d) as char
  }

  function DigitValue(c: char): nat {
    if '0' <= c <= '9' then c as int - 48 else 0
  }

  /** The template literal `${n}` for a natural number: its decimal digits, without leading zeros. */
  function DecimalString(n: nat): (s: string)
    ensures |s| >= 1
    ensures forall i :: 0 <= i < |s| ==> '0' <= s[i] <= '9'
    ensures n >= 10 ==> |s| >= 2
  {
    if n < 10 then [Digit(n)] else DecimalString(n / 10) + [Digit(n % 10)]
  }

  /** Reads decimal digits back into a number. */
  function DecimalValue(s: string): nat {
    if s == [] then 0 else DecimalValue(s[..|s| - 1]) * 10 + DigitValue(s[|s| - 1])
  }

  lemma {:induction false} DecimalRoundTrip(n: nat)
    ensures DecimalValue(DecimalString(n)) == n
  {
    if n >= 10 {
      var s := DecimalString(n);
      assert s[..|s| - 1] == DecimalString(n / 10);
      DecimalRoundTrip(n / 10);
    }
  }

  /** Different counts give different ids. */
  lemma DecimalStringInjective(m: nat, n: nat)
    ensures DecimalString(m) == DecimalString(n) ==> m == n
  {
    DecimalRoundTrip(m);
    DecimalRoundTrip(n);
  }

  /** The id `addNode` gives the next node: the current count plus one. */
  function NewId(nodes: seq<Node>): (id: string)
    ensures DecimalValue(id) == |nodes| + 1
  {
    DecimalRoundTrip(|nodes| + 1);
    DecimalString(|nodes| + 1)
  }

  // ---- the three per-type tables ----

  /** The node types that have a renderer of their own; every other type is drawn by the generic one. */
  const OwnRenderers: set<string> := {"section", "checklist", "timeline", "resource"}

  /** `getNodeType`: which renderer draws a node of this type. */
  function RenderKind(nodeType: string): (kind: string)
    ensures kind == nodeType || kind == "base"
    ensures kind == nodeType <==> nodeType in OwnRenderers || nodeType == "base"
  {
    if nodeType in OwnRenderers then nodeType else "base"
  }

  /** The shapes have renderers, yet `getNodeType` sends all four to the generic one. */
  lemma ShapesRenderAsBase()
    ensures RenderKind("circle") == RenderKind("rectangle") == RenderKind("square") == RenderKind("triangle") == "base"
  {
  }

  const LabelTable: map<string, string> := map[
    "title" := "Title", "topic" := "Topic", "subtopic" := "Sub Topic", "paragraph" := "Paragraph",
    "section" := "Section", "checklist" := "Study Checklist", "timeline" := "Study Timeline",
    "resource" := "Study Resources"]

  /** `toUpperCase` on one character; only the ASCII letters are mapped. */
  function UpperAscii(c: char): (r: char)
    ensures 'a' <= c <= 'z' ==> 'A' <= r <= 'Z' && r as int + 32 == c as int
    ensures !('a' <= c <= 'z') ==> r == c
    ensures !('a' <= r <= 'z')
  {
    if 'a' <= c <= 'z' then (c as int - 32) as char else c
  }

  /** `s.charAt(0).toUpperCase() + s.slice(1)`. */
  function Capitalize(s: string): (r: string)
    ensures |r| == |s|
    ensures s != [] ==> r[0] == UpperAscii(s[0]) && r[1..] == s[1..]
  {
    if s == [] then [] else [UpperAscii(s[0])] + s[1..]
  }

  /** `getDefaultLabel`: a fixed label for the eight known types, the capitalised type otherwise. */
  function DefaultLabel(nodeType: string): (r: string)
    ensures nodeType in LabelTable ==> r == LabelTable[nodeType]
    ensures nodeType !in LabelTable ==> r == Capitalize(nodeType)
  {
    if nodeType in LabelTable then LabelTable[nodeType] else Capitalize(nodeType)
  }

  lemma DefaultLabelExamples()
    ensures DefaultLabel("topic") == "Topic" && DefaultLabel("checklist") == "Study Checklist"
    ensures DefaultLabel("circle") == "Circle"
  {
  }

  const StarterItems: seq<ChecklistItem> := [
    ChecklistItem("1", "Read chapter 1", false, Some("high")),
    ChecklistItem("2", "Complete practice problems", false, Some("medium")),
    ChecklistItem("3", "Review notes", false, Some("low"))]

  function StarterEvents(clock: Clock): seq<TimelineEvent> {
    [TimelineEvent("1", "Start studying", clock.now, true, None, None, None),
     TimelineEvent("2", "Complete first review", clock.inThreeDays, false, None, None, None),
     TimelineEvent("3", "Exam day", clock.nextWeek, true, None, None, None)]
  }

  const StarterResources: seq<Resource> := [
    Resource("1", "Course Textbook", "https://example.com/textbook", "pdf", Some(5), Some(["essential", "reference"]), None),
    Resource("2", "Tutorial Video", "https://example.com/video", "video", Some(4), Some(["helpful"]), None)]

  /**
   * `getTypeSpecificData`: the starter payload of the three variant types.
   * Only a node of the matching type receives a variant field; every other
   * type receives nothing.
   */
  function TypeSpecificData(nodeType: string, clock: Clock): (r: NodeData)
    ensures r.checklistItems.Some? <==> nodeType == "checklist"
    ensures r.timelineEvents.Some? <==> nodeType == "timeline"
    ensures r.resources.Some? <==> nodeType == "resource"
    ensures nodeType !in {"checklist", "timeline", "resource"} ==> r == EmptyData
    ensures nodeType == "timeline" ==> r.startDate == Some(clock.now) && r.endDate == Some(clock.nextWeek)
    ensures nodeType != "timeline" ==> r.startDate.None? && r.endDate.None?
  {
    if nodeType == "checklist" then EmptyData.(checklistItems := Some(StarterItems))
    else if nodeType == "timeline" then
      EmptyData.(startDate := Some(clock.now), endDate := Some(clock.nextWeek),
                 timelineEvents := Some(StarterEvents(clock)))
    else if nodeType == "resource" then EmptyData.(resources := Some(StarterResources))
    else EmptyData
  }

  /** The starter lists: three open checklist items, three events of which the first and last are milestones, two resources. */
  lemma StarterContents(clock: Clock)
    ensures var items := TypeSpecificData("checklist", clock).checklistItems.value;
      |items| == 3 && (forall i :: 0 <= i < 3 ==> !items[i].isChecked)
      && items[0].id == "1" && items[1].id == "2" && items[2].id == "3"
      && items[0].priority == Some("high") && items[1].priority == Some("medium") && items[2].priority == Some("low")
    ensures var events := TypeSpecificData("timeline", clock).timelineEvents.value;
      |events| == 3 && events[0].isMilestone && !events[1].isMilestone && events[2].isMilestone
      && events[0].date == clock.now && events[2].date == clock.nextWeek
    ensures |TypeSpecificData("resource", clock).resources.value| == 2
  {
  }

  /**
   * The data of a new node: the style defaults, then the type's starter data,
   * then every override spread last, so a key the caller gives always wins
   * (even a falsy one, which the `||` defaults would have replaced).
   */
  function NewNodeData(nodeType: string, overrides: NodeData, clock: Clock): (r: NodeData)
    ensures Extends(r, overrides)
    ensures overrides.caption.None? ==> r.caption == Some(DefaultLabel(nodeType))
    ensures overrides.nodeType.None? ==> r.nodeType == Some(nodeType)
    ensures overrides.backgroundColor.None? ==> r.backgroundColor == Some("white")
    ensures overrides.strokeColor.None? ==> r.strokeColor == Some("black")
    ensures overrides.strokeWidth.None? ==> r.strokeWidth == Some(1)
    ensures overrides.strokeStyle.None? ==> r.strokeStyle == Some("solid")
    ensures overrides.fontSize.None? ==> r.fontSize == Some("xs")
    ensures overrides.textAlign.None? ==> r.textAlign == Some("center")
    ensures overrides.opacity.None? ==> r.opacity == Some(1.0)
    ensures overrides.hasCheckbox.None? ==> r.hasCheckbox == Some(false)
    ensures overrides.isChecked.None? ==> r.isChecked == Some(false)
    ensures overrides.checklistItems.None? ==> r.checklistItems == TypeSpecificData(nodeType, clock).checklistItems
    ensures overrides.timelineEvents.None? ==> r.timelineEvents == TypeSpecificData(nodeType, clock).timelineEvents
    ensures overrides.resources.None? ==> r.resources == TypeSpecificData(nodeType, clock).resources
    ensures overrides.startDate.None? ==> r.startDate == (if nodeType == "timeline" then Some(clock.now) else None)
    ensures overrides.endDate.None? ==> r.endDate == (if nodeType == "timeline" then Some(clock.nextWeek) else None)
    ensures overrides.legend.None? ==> r.legend.None?
    ensures overrides.content.None? ==> r.content.None?
  {
    var defaults := EmptyData.(
      caption := Some(StrOr(overrides.caption, DefaultLabel(nodeType))),
      nodeType := Some(nodeType),
      backgroundColor := Some(StrOr(overrides.backgroundColor, "white")),
      strokeColor := Some(StrOr(overrides.strokeColor, "black")),
      strokeWidth := Some(IntOr(overrides.strokeWidth, 1)),
      strokeStyle := Some(StrOr(overrides.strokeStyle, "solid")),
      fontSize := Some(StrOr(overrides.fontSize, "xs")),
      textAlign := Some(StrOr(overrides.textAlign, "center")),
      opacity := Some(RealOr(overrides.opacity, 1.0)),
      hasCheckbox := Some(BoolOr(overrides.hasCheckbox, false)),
      isChecked := Some(BoolOr(overrides.isChecked, false)));
    MergeData(MergeData(defaults, TypeSpecificData(nodeType, clock)), overrides)
  }

  /** The type is given and not empty (`if (!type) return;`). */
  predicate HasType(nodeType: Option<string>) {
    nodeType.Some? && nodeType.value != ""
  }

  /**
   * `addNode`: without a type, nothing happens; otherwise one node is appended
   * at the end, with id `length + 1`, the type's renderer, the overrides'
   * position when they carry one (a random point otherwise) and
   * `NewNodeData` as data. The nodes already there are untouched.
   */
  function AddNode(nodes: seq<Node>, nodeType: Option<string>, overrides: NodeData, randomPos: Point, clock: Clock): (r: seq<Node>)
    ensures !HasType(nodeType) ==> r == nodes
    ensures HasType(nodeType) ==>
      && |r| == |nodes| + 1
      && r[..|nodes|] == nodes
      && r[|nodes|].id == NewId(nodes)
      && r[|nodes|].kind == RenderKind(nodeType.value)
      && r[|nodes|].position == overrides.position.GetOr(randomPos)
      && r[|nodes|].data == NewNodeData(nodeType.value, overrides, clock)
      && Extends(r[|nodes|].data, overrides)
      && !r[|nodes|].selected
  {
    if !HasType(nodeType) then nodes
    else
      var t := nodeType.value;
      nodes + [Node(NewId(nodes), RenderKind(t), overrides.position.GetOr(randomPos), NewNodeData(t, overrides, clock), false)]
  }
}
