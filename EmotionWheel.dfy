/**
  The emotion check-in tool (`components/tools/EmotionWheel.tsx`): a table of six primary emotions
  keyed by their localised names, each carrying a fixed storage key and a list of secondary
  emotions; a step machine primary → secondary → intensity → notes → complete that logs one
  journal entry; the reverse lookup from storage key to localised name; and the history view,
  a copy of the journal ordered newest first.

  The localisation function `t` is a parameter. Emojis and colour classes are presentation and are
  not part of this model.
*/
module EmotionWheel {
  import opened Sorting

  datatype Step = Primary | Secondary | Intensity | Notes | Complete

  datatype ViewMode = Log | History

  datatype Emotion = Emotion(key: string, secondary: seq<string>)

  /** One property of the `emotionData` object literal: a localised name and its emotion. */
  datatype Row = Row(name: string, emotion: Emotion)

  /** What `addEmotionJournalEntry` is given. */
  datatype Draft = Draft(primaryEmotion: string, secondaryEmotion: string, intensity: int, notes: string)

  /** A stored journal entry; `timestamp` is its instant in milliseconds. */
  datatype JournalEntry = JournalEntry(
    id: string,
    timestamp: int,
    primaryEmotion: string,
    secondaryEmotion: string,
    intensity: int,
    notes: string)

  const InitialIntensity := 5

  /** The storage keys of the six primary emotions, in table order. */
  const StorageKeys := ["joy", "sadness", "anger", "fear", "surprise", "disgust"]

  /** The localised secondary emotions `emotion_<key>_secondary_1` … `_<n>`. */
  function SecondaryNames(t: string -> string, key: string, n: nat): (r: seq<string>)
    requires n <= 9
    ensures |r| == n
  {
    seq(n, j requires 0 <= j < n => t("emotion_" + key + "_secondary_" + ["123456789"[j]]))
  }

  function RowOf(t: string -> string, key: string, n: nat): Row
    requires n <= 9
  {
    Row(t("emotion_" + key), Emotion(key, SecondaryNames(t, key, n)))
  }

  /** The properties of the `emotionData` literal, in source order. */
  function Rows(t: string -> string): (r: seq<Row>)
    ensures |r| == |StorageKeys| && forall i :: 0 <= i < |r| ==> r[i].emotion.key == StorageKeys[i]
  {
    [RowOf(t, "joy", 5), RowOf(t, "sadness", 5), RowOf(t, "anger", 5),
     RowOf(t, "fear", 5), RowOf(t, "surprise", 4), RowOf(t, "disgust", 4)]
  }

  /** An object literal: a later property with the same (computed) name overwrites an earlier one. */
  function Table(rows: seq<Row>): (r: map<string, Emotion>)
    ensures forall i :: 0 <= i < |rows| ==> rows[i].name in r
  {
    if rows == [] then map[]
    else
      var last := rows[|rows| - 1];
      Table(rows[..|rows| - 1])[last.name := last.emotion]
  }

  /** `emotionData`: the table built from the localised rows. */
  function EmotionData(t: string -> string): map<string, Emotion> {
    Table(Rows(t))
  }

  /** No two names of the table share a storage key. */
  ghost predicate KeysDistinct(data: map<string, Emotion>) {
    forall a, b :: a in data && b in data && a != b ==> data[a].key != data[b].key
  }

  /** Each name of a table holds the emotion of some row bearing that name. */
  lemma {:induction false} TableValue(rows: seq<Row>, n: string)
    requires n in Table(rows)
    ensures exists i :: 0 <= i < |rows| && rows[i].name == n && rows[i].emotion == Table(rows)[n]
  {
    var init, last := rows[..|rows| - 1], rows[|rows| - 1];
    if n != last.name {
      TableValue(init, n);
      var i :| 0 <= i < |init| && init[i].name == n && init[i].emotion == Table(init)[n];
      assert rows[i] == init[i];
    }
  }

  /** Rows with pairwise different keys give a table with pairwise different keys. */
  lemma TableKeysDistinct(rows: seq<Row>)
    requires forall i, j :: 0 <= i < j < |rows| ==> rows[i].emotion.key != rows[j].emotion.key
    ensures KeysDistinct(Table(rows))
  {
    var data := Table(rows);
    forall a, b | a in data && b in data && a != b
      ensures data[a].key != data[b].key
    {
      TableValue(rows, a);
      TableValue(rows, b);
    }
  }

  lemma EmotionDataKeysDistinct(t: string -> string)
    ensures KeysDistinct(EmotionData(t))
  {
    TableKeysDistinct(Rows(t));
  }

  /**
    `keyToLocalizedName`: the `forEach` writing `map[data.key] = localizedName` for every entry. The
    names are visited in an unspecified order; because keys are distinct the result is the same
    whatever the order: the exact inverse of the name → key table.
  */
  method InvertKeys(data: map<string, Emotion>) returns (inverse: map<string, string>)
    requires KeysDistinct(data)
    ensures forall n :: n in data ==> data[n].key in inverse && inverse[data[n].key] == n
    ensures forall k :: k in inverse ==> inverse[k] in data && data[inverse[k]].key == k
  {
    inverse := map[];
    var remaining := data.Keys;
    while remaining != {}
      invariant remaining <= data.Keys
      invariant forall n :: n in data && n !in remaining ==> data[n].key in inverse && inverse[data[n].key] == n
      invariant forall k :: k in inverse ==> inverse[k] in data && inverse[k] !in remaining && data[inverse[k]].key == k
      decreases remaining
    {
      var n :| n in remaining;
      inverse := inverse[data[n].key := n];
      remaining := remaining - {n};
    }
  }

  /** The storage key of the chosen name, or the name itself when the table has no (non-empty) key for it. */
  function PrimaryKey(data: map<string, Emotion>, name: string): string {
    if name in data && data[name].key != "" then data[name].key else name
  }

  /** The secondary emotions offered for the chosen name; none for an unknown name. */
  function SecondaryOptions(data: map<string, Emotion>, name: string): (r: seq<string>)
    ensures name !in data ==> r == []
    ensures name in data ==> r == data[name].secondary
  {
    if name in data then data[name].secondary else []
  }

  /** The name shown for a stored key: its localised name, or the key itself when there is none. */
  function DisplayName(inverse: map<string, string>, key: string): string {
    if key in inverse && inverse[key] != "" then inverse[key] else key
  }

  /**
    Logging and displaying round-trip: an entry logged under a (non-empty) name of the table is
    shown in the history under that same name; an entry stored under a key the table does not
    know is shown under the raw key.
  */
  lemma DisplayOfStoredKey(data: map<string, Emotion>, inverse: map<string, string>, name: string)
    requires forall n :: n in data ==> data[n].key in inverse && inverse[data[n].key] == n
    requires forall k :: k in inverse ==> inverse[k] in data && data[inverse[k]].key == k
    ensures name in data && name != "" && data[name].key != "" ==> DisplayName(inverse, PrimaryKey(data, name)) == name
    ensures name !in data && name !in inverse ==> DisplayName(inverse, PrimaryKey(data, name)) == name
  {
  }

  function NewestFirst(e: JournalEntry): int {
    -e.timestamp
  }

  /** The history view: a copy of the journal sorted newest first. */
  function HistoryOf(journal: seq<JournalEntry>): seq<JournalEntry> {
    SortBy(journal, NewestFirst)
  }

  /** The history holds exactly the journal's entries, newest first. */
  lemma {:induction false} HistoryNewestFirst(journal: seq<JournalEntry>)
    ensures multiset(HistoryOf(journal)) == multiset(journal)
    ensures var h := HistoryOf(journal);
      forall i, j :: 0 <= i < j < |h| ==> h[i].timestamp >= h[j].timestamp
  {
    var h := HistoryOf(journal);
    assert SortedBy(h, NewestFirst);
    forall i, j | 0 <= i < j < |h|
      ensures h[i].timestamp >= h[j].timestamp
    {
      assert NewestFirst(h[i]) <= NewestFirst(h[j]);
    }
  }

  /**
    Entries with the same timestamp keep their journal order (the sort is stable): the entries
    sharing the timestamp of any entry `e` appear in the history as they do in the journal.
  */
  lemma {:induction false} HistoryKeepsTies(journal: seq<JournalEntry>, e: JournalEntry)
    ensures WithKey(HistoryOf(journal), NewestFirst, NewestFirst(e)) == WithKey(journal, NewestFirst, NewestFirst(e))
  {
    SortByStable(journal, NewestFirst, NewestFirst(e));
  }

  /** The check-in tool's state. `logged` lists the entries handed to `addEmotionJournalEntry`. */
  class Wheel {
    const data: map<string, Emotion>
    const inverse: map<string, string>
    var viewMode: ViewMode
    var step: Step
    var primaryEmotion: string
    var secondaryEmotion: string
    var intensity: int
    var notes: string
    var logged: seq<Draft>

    /** `inverse` is the inverse of the name → key table. */
    ghost predicate Valid()
      reads this
    {
      && (forall n :: n in data ==> data[n].key in inverse && inverse[data[n].key] == n)
      && (forall k :: k in inverse ==> inverse[k] in data && data[inverse[k]].key == k)
    }

    constructor(t: string -> string)
      ensures Valid()
      ensures data == EmotionData(t)
      ensures viewMode == Log && step == Primary && primaryEmotion == "" && secondaryEmotion == ""
      ensures intensity == InitialIntensity && notes == "" && logged == []
    {
      EmotionDataKeysDistinct(t);
      var inv := InvertKeys(EmotionData(t));
      data := EmotionData(t);
      inverse := inv;
      viewMode, step := Log, Primary;
      primaryEmotion, secondaryEmotion := "", "";
      intensity, notes := InitialIntensity, "";
      logged := [];
    }

    /** The secondary emotions offered at the secondary step. */
    function Options(): seq<string>
      reads this
    {
      SecondaryOptions(data, primaryEmotion)
    }

    /** `handlePrimarySelect`. */
    method SelectPrimary(emotion: string)
      modifies this
      ensures primaryEmotion == emotion && step == Secondary
      ensures viewMode == old(viewMode) && secondaryEmotion == old(secondaryEmotion)
      ensures intensity == old(intensity) && notes == old(notes) && logged == old(logged)
    {
      primaryEmotion := emotion;
      step := Secondary;
    }

    /** `handleSecondarySelect`. */
    method SelectSecondary(emotion: string)
      modifies this
      ensures secondaryEmotion == emotion && step == Intensity
      ensures viewMode == old(viewMode) && primaryEmotion == old(primaryEmotion)
      ensures intensity == old(intensity) && notes == old(notes) && logged == old(logged)
    {
      secondaryEmotion := emotion;
      step := Intensity;
    }

    /** The intensity slider. */
    method SetIntensity(value: int)
      modifies this
      ensures intensity == value
      ensures viewMode == old(viewMode) && step == old(step) && primaryEmotion == old(primaryEmotion)
      ensures secondaryEmotion == old(secondaryEmotion) && notes == old(notes) && logged == old(logged)
    {
      intensity := value;
    }

    /** The notes text area. */
    method SetNotes(text: string)
      modifies this
      ensures notes == text
      ensures viewMode == old(viewMode) && step == old(step) && primaryEmotion == old(primaryEmotion)
      ensures secondaryEmotion == old(secondaryEmotion) && intensity == old(intensity) && logged == old(logged)
    {
      notes := text;
    }

    /** The continue button of the intensity step. */
    method Continue()
      modifies this
      ensures step == Notes
      ensures viewMode == old(viewMode) && primaryEmotion == old(primaryEmotion)
      ensures secondaryEmotion == old(secondaryEmotion) && intensity == old(intensity)
      ensures notes == old(notes) && logged == old(logged)
    {
      step := Notes;
    }

    /** `handleLogEmotion`: exactly one entry is logged, under the storage key, then the step is complete. */
    method LogEmotion()
      modifies this
      ensures logged == old(logged) + [Draft(PrimaryKey(data, primaryEmotion), secondaryEmotion, intensity, notes)]
      ensures step == Complete
      ensures viewMode == old(viewMode) && primaryEmotion == old(primaryEmotion)
      ensures secondaryEmotion == old(secondaryEmotion) && intensity == old(intensity) && notes == old(notes)
    {
      logged := logged + [Draft(PrimaryKey(data, primaryEmotion), secondaryEmotion, intensity, notes)];
      step := Complete;
    }

    /** `reset`: back to the first step with nothing chosen, on the check-in view; the log stays. */
    method Reset()
      modifies this
      ensures step == Primary && primaryEmotion == "" && secondaryEmotion == ""
      ensures intensity == InitialIntensity && notes == "" && viewMode == Log
      ensures logged == old(logged)
    {
      step := Primary;
      primaryEmotion := "";
      secondaryEmotion := "";
      intensity := InitialIntensity;
      notes := "";
      viewMode := Log;
    }

    /** The check-in / journal toggle. */
    method SetViewMode(mode: ViewMode)
      modifies this
      ensures viewMode == mode
      ensures step == old(step) && primaryEmotion == old(primaryEmotion) && secondaryEmotion == old(secondaryEmotion)
      ensures intensity == old(intensity) && notes == old(notes) && logged == old(logged)
    {
      viewMode := mode;
    }

    /** The header button: leaves the tool on the first step, otherwise starts over. */
    method Back() returns (leave: bool)
      modifies this
      ensures leave <==> old(step) == Primary
      ensures leave ==> step == old(step) && primaryEmotion == old(primaryEmotion) && viewMode == old(viewMode)
      ensures leave ==> secondaryEmotion == old(secondaryEmotion) && intensity == old(intensity) && notes == old(notes)
      ensures !leave ==> step == Primary && primaryEmotion == "" && secondaryEmotion == "" && viewMode == Log
      ensures !leave ==> intensity == InitialIntensity && notes == ""
      ensures logged == old(logged)
    {
      leave := step == Primary;
      if !leave {
        Reset();
      }
    }
  }

  /**
    One full check-in on a fresh tool: choosing a name, a secondary emotion, an intensity and notes
    and logging gives exactly one journal entry, stored under the name's storage key, and the tool
    ends on the complete step; starting over returns to the first step.
  */
  method CheckIn(t: string -> string, name: string, secondary: string, level: int, text: string)
    returns (logged: seq<Draft>, final: Step, afterReset: Step)
    ensures logged == [Draft(PrimaryKey(EmotionData(t), name), secondary, level, text)]
    ensures final == Complete && afterReset == Primary
  {
    var w := new Wheel(t);
    w.SelectPrimary(name);
    w.SelectSecondary(secondary);
    w.SetIntensity(level);
    w.Continue();
    w.SetNotes(text);
    w.LogEmotion();
    logged, final := w.logged, w.step;
    w.Reset();
    afterReset := w.step;
  }
}
