/**
 * The timeline panel of a timeline node: the start and end date pickers, a
 * form that adds and edits events, and buttons that delete events and mark
 * them done. Every change is sent as an `updateNodeData` patch; dates travel
 * as ISO 8601 text, produced by the caller from the picked or typed date.
 */
module TimelineSettings {

  import opened Opt
  import opened Types
  import opened Seqs

  /** The event list a node shows; a missing list reads as empty. */
  function EventsOf(data: NodeData): (r: seq<TimelineEvent>)
    ensures data.timelineEvents.Some? ==> r == data.timelineEvents.value
    ensures data.timelineEvents.None? ==> r == []
  {
    data.timelineEvents.GetOr([])
  }

  /** The patch that replaces the node's whole event list. */
  function EventsPatch(events: seq<TimelineEvent>): (p: NodeData)
    ensures p.timelineEvents == Some(events)
    ensures p.(timelineEvents := None) == EmptyData
  {
    EmptyData.(timelineEvents := Some(events))
  }
  /** A node updated with the list patch shows exactly that event list, whatever its data was. */
  lemma EventsPatchReadsBack(data: NodeData, xs: seq<TimelineEvent>)
    ensures EventsOf(MergeData(data, EventsPatch(xs))) == xs
    ensures MergeData(data, EventsPatch(xs)).(timelineEvents := data.timelineEvents) == data
  {
    var d := MergeData(data, EventsPatch(xs));
    assert d.extra == data.extra;
  }


  /** The add/edit form's fields; `date` is the typed day, as text. */
  datatype EventDraft = EventDraft(title: string, date: string, isMilestone: bool, color: string, description: string, isCompleted: bool)

  /** The form after a reset. */
  const BlankEvent := EventDraft("", "", false, "#4c86e0", "", false)

  /** `handleAddEvent`'s list: one event built from the form (its date as `iso`) appended last. */
  function AppendEvent(events: seq<TimelineEvent>, freshId: string, d: EventDraft, iso: string): (r: seq<TimelineEvent>)
    ensures |r| == |events| + 1 && r[..|events|] == events
    ensures r[|events|] == TimelineEvent(freshId, d.title, iso, d.isMilestone, Some(d.color), Some(d.description), Some(d.isCompleted))
  {
    events + [TimelineEvent(freshId, d.title, iso, d.isMilestone, Some(d.color), Some(d.description), Some(d.isCompleted))]
  }

  /** `handleUpdateEvent`'s list: the events with that id take every form field and keep their id. */
  function ReviseEvent(events: seq<TimelineEvent>, id: string, d: EventDraft, iso: string): (r: seq<TimelineEvent>)
    ensures |r| == |events|
    ensures forall i :: 0 <= i < |events| && events[i].id != id ==> r[i] == events[i]
    ensures forall i :: 0 <= i < |events| && events[i].id == id ==>
      r[i] == TimelineEvent(id, d.title, iso, d.isMilestone, Some(d.color), Some(d.description), Some(d.isCompleted))
  {
    MapWhere(events, (e: TimelineEvent) => e.id == id,
             (e: TimelineEvent) => e.(title := d.title, date := iso, isMilestone := d.isMilestone,
                                      color := Some(d.color), description := Some(d.description), isCompleted := Some(d.isCompleted)))
  }

  /** `handleDeleteEvent`'s list: every event with that id is gone, every other stays. */
  function RemoveEvent(events: seq<TimelineEvent>, id: string): (r: seq<TimelineEvent>)
    ensures forall e :: e in r <==> e in events && e.id != id
  {
    FilterExactly(events, (e: TimelineEvent) => e.id != id);
    Filter(events, (e: TimelineEvent) => e.id != id)
  }
  /**
   * Removing distributes over concatenation and keeps a single event exactly when its
   * id differs, so the survivors keep their order and their repetitions.
   */
  lemma RemoveEventAppend(a: seq<TimelineEvent>, b: seq<TimelineEvent>, id: string)
    ensures RemoveEvent(a + b, id) == RemoveEvent(a, id) + RemoveEvent(b, id)
    ensures forall e :: RemoveEvent([e], id) == if e.id != id then [e] else []
  {
    FilterAppend(a, b, (e: TimelineEvent) => e.id != id);
  }


  /** Whether an event is done; a missing flag reads as not done. */
  function Done(e: TimelineEvent): bool {
    e.isCompleted.GetOr(false)
  }

  /** `handleToggleEventCompletion`'s list: the events with that id flip their done flag; nothing else changes. */
  function FlipCompletion(events: seq<TimelineEvent>, id: string): (r: seq<TimelineEvent>)
    ensures |r| == |events|
    ensures forall i :: 0 <= i < |events| && events[i].id != id ==> r[i] == events[i]
    ensures forall i :: 0 <= i < |events| && events[i].id == id ==>
      Done(r[i]) == !Done(events[i]) && r[i].isCompleted.Some? && r[i].(isCompleted := events[i].isCompleted) == events[i]
  {
    MapWhere(events, (e: TimelineEvent) => e.id == id, (e: TimelineEvent) => e.(isCompleted := Some(!Done(e))))
  }

  /**
   * Toggling twice restores the list when the toggled events state their flag;
   * an event without one comes back with the flag written as false.
   */
  lemma FlipCompletionTwice(events: seq<TimelineEvent>, id: string)
    requires forall i :: 0 <= i < |events| && events[i].id == id ==> events[i].isCompleted.Some?
    ensures FlipCompletion(FlipCompletion(events, id), id) == events
  {
    var twice := FlipCompletion(FlipCompletion(events, id), id);
    forall i | 0 <= i < |events|
      ensures twice[i] == events[i]
    {
    }
  }

  lemma FlipCompletionTwiceWritesFlag(e: TimelineEvent)
    requires e.isCompleted.None?
    ensures FlipCompletion(FlipCompletion([e], e.id), e.id) == [e.(isCompleted := Some(false))]
  {
  }

  /** `split('T')[0]`: the text before the first 'T', or all of it. */
  function DayPart(iso: string): (day: string)
    ensures |day| <= |iso| && day == iso[..|day|]
    ensures 'T' !in day
    ensures |day| < |iso| ==> iso[|day|] == 'T'
  {
    if iso == [] then []
    else if iso[0] == 'T' then []
    else [iso[0]] + DayPart(iso[1..])
  }

  /** `handleEditEvent`'s form: the event's fields, its date cut to the day, missing ones from the blank form. */
  function EditDraft(e: TimelineEvent): (d: EventDraft)
    ensures d.title == e.title && d.isMilestone == e.isMilestone && d.isCompleted == Done(e)
    ensures d.date == DayPart(e.date)
    ensures d.color == (if Truthy(e.color) then e.color.value else BlankEvent.color)
    ensures d.description == (if Truthy(e.description) then e.description.value else BlankEvent.description)
  {
    EventDraft(e.title, DayPart(e.date), e.isMilestone, StrOr(e.color, "#4c86e0"), StrOr(e.description, ""), BoolOr(e.isCompleted, false))
  }

  /**
   * Opening an event in the form and saving it unchanged (its date read back
   * as the same timestamp) gives it every field it had, with color,
   * description and done flag now written out.
   */
  lemma EditThenUpdateKeepsEvent(events: seq<TimelineEvent>, i: nat)
    requires i < |events|
    requires Truthy(events[i].color) && events[i].description.Some? && events[i].isCompleted.Some?
    ensures ReviseEvent(events, events[i].id, EditDraft(events[i]), events[i].date)[i] == events[i]
  {
  }

  /** The panel's state: the two picked dates, the draft, and the id of the event being edited. */
  class TimelineForm {
    var startDate: Option<string>
    var endDate: Option<string>
    var draft: EventDraft
    var editingEventId: Option<string>

    /** The pickers start from the node's own dates, when set. */
    constructor (data: NodeData)
      ensures startDate == (if Truthy(data.startDate) then data.startDate else None)
      ensures endDate == (if Truthy(data.endDate) then data.endDate else None)
      ensures draft == BlankEvent && editingEventId == None
    {
      startDate := if Truthy(data.startDate) then data.startDate else None;
      endDate := if Truthy(data.endDate) then data.endDate else None;
      draft := BlankEvent;
      editingEventId := None;
    }

    /** `handleStartDateSelect`: the picker follows the choice; a date, once chosen, is written to the node. */
    method HandleStartDateSelect(date: Option<string>) returns (patch: Option<NodeData>)
      modifies this
      ensures startDate == date && endDate == old(endDate)
      ensures draft == old(draft) && editingEventId == old(editingEventId)
      ensures patch == (if date.Some? then Some(EmptyData.(startDate := date)) else None)
    {
      startDate := date;
      patch := if date.Some? then Some(EmptyData.(startDate := date)) else None;
    }

    /** `handleEndDateSelect`: as for the start date. */
    method HandleEndDateSelect(date: Option<string>) returns (patch: Option<NodeData>)
      modifies this
      ensures endDate == date && startDate == old(startDate)
      ensures draft == old(draft) && editingEventId == old(editingEventId)
      ensures patch == (if date.Some? then Some(EmptyData.(endDate := date)) else None)
    {
      endDate := date;
      patch := if date.Some? then Some(EmptyData.(endDate := date)) else None;
    }

    /** `handleAddEvent`: needs a title and a date; sends the appended list and resets the form. */
    method HandleAddEvent(data: NodeData, freshId: string, iso: string) returns (patch: Option<NodeData>)
      modifies this
      ensures old(draft.title) == "" || old(draft.date) == "" ==> patch == None && draft == old(draft)
      ensures old(draft.title) != "" && old(draft.date) != "" ==>
        patch == Some(EventsPatch(AppendEvent(EventsOf(data), freshId, old(draft), iso))) && draft == BlankEvent
      ensures editingEventId == old(editingEventId) && startDate == old(startDate) && endDate == old(endDate)
    {
      if draft.title == "" || draft.date == "" {
        return None;
      }
      patch := Some(EventsPatch(AppendEvent(EventsOf(data), freshId, draft, iso)));
      draft := BlankEvent;
    }

    /** `handleUpdateEvent`: needs an event being edited, a title and a date; sends the revised list and closes the edit. */
    method HandleUpdateEvent(data: NodeData, iso: string) returns (patch: Option<NodeData>)
      modifies this
      ensures !Truthy(old(editingEventId)) || old(draft.title) == "" || old(draft.date) == "" ==>
        patch == None && draft == old(draft) && editingEventId == old(editingEventId)
      ensures Truthy(old(editingEventId)) && old(draft.title) != "" && old(draft.date) != "" ==>
        && patch == Some(EventsPatch(ReviseEvent(EventsOf(data), old(editingEventId).value, old(draft), iso)))
        && draft == BlankEvent && editingEventId == None
      ensures startDate == old(startDate) && endDate == old(endDate)
    {
      if !Truthy(editingEventId) || draft.title == "" || draft.date == "" {
        return None;
      }
      patch := Some(EventsPatch(ReviseEvent(EventsOf(data), editingEventId.value, draft, iso)));
      editingEventId := None;
      draft := BlankEvent;
    }

    /** `handleDeleteEvent`: sends the list without that id; deleting the event being edited also resets the form. */
    method HandleDeleteEvent(data: NodeData, id: string) returns (patch: NodeData)
      modifies this
      ensures patch == EventsPatch(RemoveEvent(EventsOf(data), id))
      ensures old(editingEventId) == Some(id) ==> draft == BlankEvent && editingEventId == None
      ensures old(editingEventId) != Some(id) ==> draft == old(draft) && editingEventId == old(editingEventId)
      ensures startDate == old(startDate) && endDate == old(endDate)
    {
      patch := EventsPatch(RemoveEvent(EventsOf(data), id));
      if editingEventId == Some(id) {
        editingEventId := None;
        draft := BlankEvent;
      }
    }

    method HandleEditEvent(e: TimelineEvent)
      modifies this
      ensures editingEventId == Some(e.id) && draft == EditDraft(e)
      ensures startDate == old(startDate) && endDate == old(endDate)
    {
      editingEventId := Some(e.id);
      draft := EditDraft(e);
    }

    method HandleCancelEdit()
      modifies this
      ensures draft == BlankEvent && editingEventId == None
      ensures startDate == old(startDate) && endDate == old(endDate)
    {
      editingEventId := None;
      draft := BlankEvent;
    }

    method HandleToggleEventCompletion(data: NodeData, id: string) returns (patch: NodeData)
      ensures patch == EventsPatch(FlipCompletion(EventsOf(data), id))
    {
      patch := EventsPatch(FlipCompletion(EventsOf(data), id));
    }
  }
}
