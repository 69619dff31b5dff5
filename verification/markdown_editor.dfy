/** The Markdown editor card: a view mode that shows the text and an edit
    mode with a textarea, switched by the header button, Save Changes and
    Cancel. `onSave` is recorded as the list of texts it was called with. */
module MarkdownEditor {
  import opened Common

  datatype EditorState = EditorState(isEditing: bool, markdown: string)

  /** The user actions the card offers: the header Edit/Save button, a change
      of the textarea, and the footer's Save Changes and Cancel buttons. */
  datatype EditorEvent = HeaderClick | Change(value: string) | SaveChanges | Cancel

  /** One handler's effect: the next state, and the text passed to `onSave`
      if the handler called it. */
  datatype Transition = Transition(next: EditorState, saved: Option<string>)

  /** The state right after mounting. */
  function Initial(initialMarkdown: string): EditorState {
    EditorState(false, initialMarkdown)
  }

  /** The controls the card renders in a state: the header button always,
      the textarea and the footer's Save Changes and Cancel only in edit mode. */
  predicate Enabled(s: EditorState, e: EditorEvent) {
    e.HeaderClick? || s.isEditing
  }

  /** The handler behind each event: `handleSave` for Save Changes and for the
      header button in edit mode, `setIsEditing(true)` for the header button
      in view mode, `setMarkdown` for a change, `setIsEditing(false)` for
      Cancel. */
  function Step(s: EditorState, e: EditorEvent): (r: Transition)
    ensures r.saved.Some? <==> e.SaveChanges? || (e.HeaderClick? && s.isEditing)
    ensures r.saved.Some? ==> r.saved.value == s.markdown
    ensures r.next.markdown == if e.Change? then e.value else s.markdown
    ensures r.next.isEditing <==> (e.HeaderClick? && !s.isEditing) || (e.Change? && s.isEditing)
    ensures Enabled(s, e) && r.saved.Some? ==> s.isEditing && !r.next.isEditing
  {
    match e
    case HeaderClick => if s.isEditing then Save(s) else Transition(s.(isEditing := true), None)
    case Change(value) => Transition(s.(markdown := value), None)
    case SaveChanges => Save(s)
    case Cancel => Transition(s.(isEditing := false), None)
  }

  /** `handleSave`: hand the buffer to `onSave`, then leave edit mode. */
  function Save(s: EditorState): Transition {
    Transition(s.(isEditing := false), Some(s.markdown))
  }

  /** In edit mode the header button and Save Changes do the same thing. */
  lemma HeaderClickSavesWhenEditing(s: EditorState)
    requires s.isEditing
    ensures Step(s, HeaderClick) == Step(s, SaveChanges)
  {
  }

  function SavedTexts(t: Transition): seq<string> {
    match t.saved
    case None => []
    case Some(text) => [text]
  }

  /** A session of events: the final state and every text given to `onSave`,
      in call order. */
  datatype Session = Session(final: EditorState, saves: seq<string>)

  function Run(s: EditorState, events: seq<EditorEvent>): Session
    decreases events
  {
    if events == [] then Session(s, [])
    else
      var t := Step(s, events[0]);
      var rest := Run(t.next, events[1..]);
      Session(rest.final, SavedTexts(t) + rest.saves)
  }

  /** A session the user can actually perform: every event is on a control
      the card renders at that moment. */
  predicate EnabledRun(s: EditorState, events: seq<EditorEvent>)
    decreases events
  {
    events == [] || (Enabled(s, events[0]) && EnabledRun(Step(s, events[0]).next, events[1..]))
  }

  function CountHeaderClicks(events: seq<EditorEvent>): nat {
    if events == [] then 0 else (if events[0].HeaderClick? then 1 else 0) + CountHeaderClicks(events[1..])
  }

  /** Every `onSave` call in a performable session is made from edit mode and
      ends it, and edit mode is only entered by the header button: so a
      session makes at most one save per header click, plus one if it
      started in edit mode. */
  lemma {:induction false} SavesNeedEditMode(s: EditorState, events: seq<EditorEvent>)
    requires EnabledRun(s, events)
    ensures |Run(s, events).saves| + (if Run(s, events).final.isEditing then 1 else 0)
            <= CountHeaderClicks(events) + (if s.isEditing then 1 else 0)
    decreases events
  {
    if events != [] {
      SavesNeedEditMode(Step(s, events[0]).next, events[1..]);
    }
  }

  /** The buffer after a session, defined from the end of the event list: the
      value of the last change, or the starting text when there was none. */
  function LastChange(start: string, events: seq<EditorEvent>): string {
    if events == [] then start
    else if events[|events| - 1].Change? then events[|events| - 1].value
    else LastChange(start, events[..|events| - 1])
  }

  lemma {:induction false} RunSnoc(s: EditorState, events: seq<EditorEvent>, e: EditorEvent)
    ensures Run(s, events + [e]).final == Step(Run(s, events).final, e).next
    ensures Run(s, events + [e]).saves == Run(s, events).saves + SavedTexts(Step(Run(s, events).final, e))
    decreases events
  {
    if events == [] {
      assert events + [e] == [e];
    } else {
      assert (events + [e])[1..] == events[1..] + [e];
      RunSnoc(Step(s, events[0]).next, events[1..], e);
    }
  }

  /** Nothing but typing changes the buffer: after any session it holds the
      last typed value, or the text it started with. Save, Cancel and the mode
      switches never rewrite it. */
  lemma {:induction false} BufferIsLastChange(s: EditorState, events: seq<EditorEvent>)
    ensures Run(s, events).final.markdown == LastChange(s.markdown, events)
  {
    if events != [] {
      var init := events[..|events| - 1];
      assert init + [events[|events| - 1]] == events;
      RunSnoc(s, init, events[|events| - 1]);
      BufferIsLastChange(s, init);
    }
  }

  /** `onSave` only ever receives the starting text or a value the user typed,
      unchanged. */
  lemma {:induction false} SavesAreTypedText(s: EditorState, events: seq<EditorEvent>)
    ensures forall x :: x in Run(s, events).saves ==> x == s.markdown || Change(x) in events
    decreases events
  {
    if events != [] {
      var t := Step(s, events[0]);
      SavesAreTypedText(t.next, events[1..]);
      forall x | x in Run(s, events).saves
        ensures x == s.markdown || Change(x) in events
      {
        if x !in SavedTexts(t) {
          assert x == t.next.markdown || Change(x) in events[1..];
          if x == t.next.markdown && x != s.markdown {
            assert events[0] == Change(x);
          }
          if Change(x) in events[1..] {
            var k :| 0 <= k < |events[1..]| && events[1..][k] == Change(x);
            assert events[k + 1] == Change(x);
          }
        }
      }
    }
  }

  /** Without a Save Changes click or a header click `onSave` is never
      called: typing and Cancel do not call it. */
  lemma {:induction false} NoSaveWithoutSaveAction(s: EditorState, events: seq<EditorEvent>)
    requires SaveChanges !in events && HeaderClick !in events
    ensures Run(s, events).saves == []
    decreases events
  {
    if events != [] {
      assert events[0] != SaveChanges && events[0] != HeaderClick;
      assert forall e :: e in events[1..] ==> e in events;
      NoSaveWithoutSaveAction(Step(s, events[0]).next, events[1..]);
    }
  }

  /** Edit, type `text`, then Save: `onSave` receives exactly `text` once and
      the card is back in view mode showing it. */
  lemma EditTypeSave(s: EditorState, text: string)
    requires !s.isEditing
    ensures Run(s, [HeaderClick, Change(text), SaveChanges]) == Session(EditorState(false, text), [text])
  {
    var s1 := EditorState(true, s.markdown);
    var s2 := EditorState(true, text);
    var s3 := EditorState(false, text);
    assert Run(s3, []) == Session(s3, []);
    assert Run(s2, [SaveChanges]) == Session(s3, [text]);
    assert Run(s1, [Change(text), SaveChanges]) == Session(s3, [text]);
  }

  /** Edit, type `text`, then Cancel: `onSave` is not called and the buffer
      keeps `text`; the edit is not reverted, so editing again shows it. */
  lemma EditTypeCancel(s: EditorState, text: string)
    requires !s.isEditing
    ensures Run(s, [HeaderClick, Change(text), Cancel, HeaderClick]) == Session(EditorState(true, text), [])
  {
    var s1 := EditorState(true, s.markdown);
    var s2 := EditorState(true, text);
    var s3 := EditorState(false, text);
    assert Run(s2, []) == Session(s2, []);
    assert Run(s3, [HeaderClick]) == Session(s2, []);
    assert Run(s2, [Cancel, HeaderClick]) == Session(s2, []);
    assert Run(s1, [Change(text), Cancel, HeaderClick]) == Session(s2, []);
  }

  /** The component instance: the two state variables and the `onSave` log. */
  class Editor {
    var isEditing: bool
    var markdown: string
    var saves: seq<string>

    function State(): EditorState
      reads this
    {
      EditorState(isEditing, markdown)
    }

    constructor (initialMarkdown: string)
      ensures State() == Initial(initialMarkdown) && saves == []
    {
      isEditing := false;
      markdown := initialMarkdown;
      saves := [];
    }

    /** `handleSave`, reached only from edit mode. */
    method Save()
      requires isEditing
      modifies this
      ensures !isEditing && markdown == old(markdown)
      ensures saves == old(saves) + [old(markdown)]
    {
      saves := saves + [markdown];
      isEditing := false;
    }

    /** The header button: Save in edit mode, Edit in view mode. */
    method ClickHeader()
      modifies this
      ensures State() == Step(old(State()), HeaderClick).next
      ensures saves == old(saves) + SavedTexts(Step(old(State()), HeaderClick))
    {
      if isEditing {
        Save();
      } else {
        isEditing := true;
      }
    }

    /** The textarea's onChange: the buffer becomes the new value as is. */
    method ChangeText(value: string)
      requires isEditing
      modifies this
      ensures State() == Step(old(State()), Change(value)).next
      ensures saves == old(saves)
    {
      markdown := value;
    }

    /** The footer's Save Changes button. */
    method ClickSaveChanges()
      requires isEditing
      modifies this
      ensures State() == Step(old(State()), SaveChanges).next
      ensures saves == old(saves) + SavedTexts(Step(old(State()), SaveChanges))
    {
      Save();
    }

    /** The footer's Cancel button: leave edit mode, keep the buffer. */
    method ClickCancel()
      requires isEditing
      modifies this
      ensures State() == Step(old(State()), Cancel).next
      ensures saves == old(saves)
    {
      isEditing := false;
    }
  }
}
