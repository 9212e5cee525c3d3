/** The shapes a transcript arrives in: reading the fields, telling content from an explicit blank and
    from a shape nobody knows, and archiving it so that it can be read back. */
module CirclebackTranscript {
  import opened Options
  import opened Text

  /** A JSON value; numbers keep their text. */
  datatype Json = Null | Bool(b: bool) | Num(text: string) | Str(s: string) | Arr(items: seq<Json>) | Obj(fields: map<string, Json>)

  datatype Entry = Entry(speaker: string, speakerName: string, text: string, content: string, words: Option<Json>,
                         offsets: seq<string>, unrecognized: bool)

  datatype Transcript = Transcript(id: string, meetingId: string, entries: seq<Entry>, text: string,
                                   hasEntries: bool, hasText: bool, raw: Json)

  // ---- Reading fields ----

  /** A string field: absent and null leave it empty, another type fails the whole decode. */
  function StringField(f: map<string, Json>, key: string): Option<string> {
    if key !in f || f[key].Null? then Some("")
    else if f[key].Str? then Some(f[key].s)
    else None
  }

  /** A field that may be a string or a number. */
  function FlexField(f: map<string, Json>, key: string): Option<string> {
    if key in f && f[key].Num? then Some(f[key].text) else StringField(f, key)
  }

  /** A value that says something. */
  predicate NonBlank(v: Json) {
    match v
    case Null => false
    case Str(s) => TrimSpace(s) != ""
    case Arr(items) => items != []
    case Obj(fields) => fields != map[]
    case _ => true
  }

  const METADATA_KEYS := {"speaker", "speakerName", "timestamp", "start", "startTimestamp", "time"}

  predicate WordsAreText(v: Json) {
    v.Null? || v.Str?
  }

  predicate HasRecognizedKey(f: map<string, Json>) {
    "text" in f || "content" in f || ("words" in f && WordsAreText(f["words"]))
  }

  predicate HasForeignWords(f: map<string, Json>) {
    "words" in f && !WordsAreText(f["words"])
  }

  predicate Unrecognized(f: map<string, Json>) {
    HasForeignWords(f) || (!HasRecognizedKey(f) && exists k | k in f :: k !in METADATA_KEYS && NonBlank(f[k]))
  }

  function EntryFields(f: map<string, Json>): Option<Entry> {
    var speaker, name, text, content := StringField(f, "speaker"), StringField(f, "speakerName"), StringField(f, "text"), StringField(f, "content");
    var a, b, c, d := FlexField(f, "timestamp"), FlexField(f, "start"), FlexField(f, "startTimestamp"), FlexField(f, "time");
    if speaker.None? || name.None? || text.None? || content.None? || a.None? || b.None? || c.None? || d.None? then None
    else Some(Entry(speaker.value, name.value, text.value, content.value,
                    if "words" in f then Some(f["words"]) else None,
                    [a.value, b.value, c.value, d.value], Unrecognized(f)))
  }

  /** One entry: an object, or a null that leaves everything empty. */
  function DecodeEntry(v: Json): Option<Entry> {
    if v.Null? then EntryFields(map[])
    else if v.Obj? then EntryFields(v.fields)
    else None
  }

  function DecodeEntries(items: seq<Json>): Option<seq<Entry>> {
    if items == [] then Some([])
    else
      var head, tail := DecodeEntry(items[0]), DecodeEntries(items[1..]);
      if head.None? || tail.None? then None else Some([head.value] + tail.value)
  }

  function EntriesField(f: map<string, Json>): Option<seq<Entry>> {
    if "transcript" !in f || f["transcript"].Null? then Some([])
    else if f["transcript"].Arr? then DecodeEntries(f["transcript"].items)
    else None
  }

  function Unmarshal(raw: Json): Option<Transcript> {
    var f := if raw.Obj? then raw.fields else map[];
    var id, meetingId, text, entries := FlexField(f, "id"), FlexField(f, "meetingId"), StringField(f, "text"), EntriesField(f);
    if !(raw.Obj? || raw.Null?) || id.None? || meetingId.None? || text.None? || entries.None? then None
    else Some(Transcript(id.value, meetingId.value, entries.value, text.value, "transcript" in f, "text" in f, raw))
  }

  // ---- What is in it ----

  function Utterance(e: Entry): string {
    if TrimSpace(e.text) != "" then TrimSpace(e.text)
    else if TrimSpace(e.content) != "" then TrimSpace(e.content)
    else if e.words.Some? && e.words.value.Str? then TrimSpace(e.words.value.s)
    else ""
  }

  function ResolvedID(t: Transcript): string {
    if TrimSpace(t.id) != "" then TrimSpace(t.id) else TrimSpace(t.meetingId)
  }

  datatype Classification = Present | RecognizedEmpty | Drifted

  predicate Says(t: Transcript) {
    TrimSpace(t.text) != "" || exists i | 0 <= i < |t.entries| :: Utterance(t.entries[i]) != ""
  }

  predicate Drifts(t: Transcript) {
    exists i | 0 <= i < |t.entries| :: t.entries[i].unrecognized
  }

  function Classify(t: Transcript): Classification {
    if Says(t) then Present
    else if Drifts(t) || !(t.hasText || t.hasEntries) then Drifted
    else RecognizedEmpty
  }

  /** The two passes over the entries. */
  method ClassifyEntries(t: Transcript) returns (c: Classification)
    ensures c == Classify(t)
  {
    if TrimSpace(t.text) != "" {
      return Present;
    }
    for i := 0 to |t.entries|
      invariant forall k | 0 <= k < i :: Utterance(t.entries[k]) == ""
    {
      if Utterance(t.entries[i]) != "" {
        return Present;
      }
    }
    for i := 0 to |t.entries|
      invariant forall k | 0 <= k < i :: !t.entries[k].unrecognized
    {
      if t.entries[i].unrecognized {
        return Drifted;
      }
    }
    return if t.hasText || t.hasEntries then RecognizedEmpty else Drifted;
  }

  /** The entries with something said, in order. */
  method ContentEntries(t: Transcript) returns (kept: seq<Entry>)
    ensures forall e :: e in kept <==> e in t.entries && Utterance(e) != ""
    ensures multiset(kept) <= multiset(t.entries)
    ensures kept == Spoken(t.entries)
  {
    kept := [];
    for i := 0 to |t.entries|
      invariant kept == Spoken(t.entries[..i])
    {
      assert t.entries[..i + 1][..i] == t.entries[..i];
      if Utterance(t.entries[i]) != "" {
        kept := kept + [t.entries[i]];
      }
    }
    assert t.entries[..|t.entries|] == t.entries;
    SpokenIsFilter(t.entries);
  }

  function Spoken(entries: seq<Entry>): seq<Entry> {
    if entries == [] then []
    else
      var last := entries[|entries| - 1];
      Spoken(entries[..|entries| - 1]) + (if Utterance(last) != "" then [last] else [])
  }

  lemma {:induction false} SpokenIsFilter(entries: seq<Entry>)
    ensures forall e :: e in Spoken(entries) <==> e in entries && Utterance(e) != ""
    ensures multiset(Spoken(entries)) <= multiset(entries)
  {
    if entries != [] {
      var last := entries[|entries| - 1];
      SpokenIsFilter(entries[..|entries| - 1]);
      assert entries == entries[..|entries| - 1] + [last];
    }
  }

  // ---- Decoding and archiving ----

  /** decodeTranscript: what the client hands over, and what recovery reads back. */
  function Decode(raw: Json): Option<Transcript> {
    var t := Unmarshal(raw);
    if t.None? || ResolvedID(t.value) == "" || Classify(t.value).Drifted? then None else t
  }

  /** A decoded transcript is its raw payload, read. */
  predicate Faithful(t: Transcript) {
    Decode(t.raw) == Some(t)
  }

  lemma DecodeIsFaithful(raw: Json)
    requires Decode(raw).Some?
    ensures Decode(raw).value.raw == raw && Faithful(Decode(raw).value)
  {
  }

  predicate HasContent(t: Option<Transcript>) {
    t.Some? && Classify(t.value).Present?
  }

  /** composeRaw: both payloads in one object. */
  function ComposeRaw(meeting: Json, t: Option<Transcript>): Json {
    Obj(if t.Some? then map["meeting" := meeting, "transcript" := t.value.raw] else map["meeting" := meeting])
  }

  datatype State = IsPresent | IsPending | IsUnavailable | IsOther

  datatype Recovery = NoMetadata | BadState | NotKept | BadRaw | Recovered(transcript: Transcript)

  /** recoverArchivedTranscript, from a row's state and its composed raw. */
  function Recover(state: Option<State>, raw: Json): Recovery {
    if state.None? then NoMetadata
    else match state.value
      case IsOther => BadState
      case IsPending => NotKept
      case IsUnavailable => NotKept
      case IsPresent =>
        if !raw.Obj? || "transcript" !in raw.fields then BadRaw
        else
          var t := Decode(raw.fields["transcript"]);
          if HasContent(t) then Recovered(t.value) else BadRaw
  }

  /** Main result: what is archived of a decoded transcript with content reads back as that transcript. */
  lemma ComposeThenRecover(meeting: Json, t: Transcript)
    requires Faithful(t) && Classify(t).Present?
    ensures Recover(Some(IsPresent), ComposeRaw(meeting, Some(t))) == Recovered(t)
  {
    assert ComposeRaw(meeting, Some(t)).fields["transcript"] == t.raw;
  }

  // ---- Drift is never taken for an empty transcript ----

  lemma {:induction false} EntryAt(items: seq<Json>, i: nat)
    requires DecodeEntries(items).Some? && i < |items|
    ensures |DecodeEntries(items).value| == |items|
    ensures DecodeEntry(items[i]) == Some(DecodeEntries(items).value[i])
    decreases |items|
  {
    if i > 0 {
      EntryAt(items[1..], i - 1);
    } else if |items| > 1 {
      EntryAt(items[1..], 0);
    } else {
      assert items[1..] == [];
    }
  }

  /** An entry with something said only under a key nobody knows. */
  predicate Foreign(v: Json) {
    && v.Obj? && !HasRecognizedKey(v.fields)
    && exists k | k in v.fields :: k !in METADATA_KEYS && NonBlank(v.fields[k])
  }

  /** Main result: a payload in which some entry speaks a foreign shape is either archived with the
      content another entry has, or refused; it never decodes as explicitly empty. */
  lemma DriftIsNotEmpty(raw: Json, i: nat)
    requires raw.Obj? && "transcript" in raw.fields && raw.fields["transcript"].Arr?
    requires i < |raw.fields["transcript"].items| && Foreign(raw.fields["transcript"].items[i])
    ensures Decode(raw).None? || Classify(Decode(raw).value).Present?
  {
    if Unmarshal(raw).Some? {
      var items := raw.fields["transcript"].items;
      EntryAt(items, i);
      assert Unmarshal(raw).value.entries[i].unrecognized;
    }
  }

  // ---- What decodes as empty, in terms of the payload ----

  /** Absent, null, or white space. */
  predicate Blank(f: map<string, Json>, key: string) {
    key in f ==> f[key].Null? || (f[key].Str? && AllSpace(f[key].s))
  }

  predicate TextOrNull(f: map<string, Json>, key: string) {
    key in f ==> f[key].Null? || f[key].Str?
  }

  predicate TextNumberOrNull(f: map<string, Json>, key: string) {
    key in f ==> f[key].Null? || f[key].Str? || f[key].Num?
  }

  predicate Names(f: map<string, Json>, key: string) {
    key in f && ((f[key].Str? && !AllSpace(f[key].s)) || (f[key].Num? && !AllSpace(f[key].text)))
  }

  /** An entry that says nothing, in a shape that is known: a null, or an object whose text fields are
      blank, one of which it has, unless there is nothing under any key but the speaker and the time. */
  predicate SilentEntry(v: Json) {
    v.Null? || (v.Obj?
      && Blank(v.fields, "text") && Blank(v.fields, "content") && Blank(v.fields, "words")
      && TextOrNull(v.fields, "speaker") && TextOrNull(v.fields, "speakerName")
      && TextNumberOrNull(v.fields, "timestamp") && TextNumberOrNull(v.fields, "start")
      && TextNumberOrNull(v.fields, "startTimestamp") && TextNumberOrNull(v.fields, "time")
      && ("text" in v.fields || "content" in v.fields || "words" in v.fields
          || forall k | k in v.fields && k !in METADATA_KEYS :: !NonBlank(v.fields[k])))
  }

  /** A meeting's ID, one of the two known fields, and not a word in either. */
  predicate EmptyShape(f: map<string, Json>) {
    && (Names(f, "id") || Names(f, "meetingId")) && TextNumberOrNull(f, "id") && TextNumberOrNull(f, "meetingId")
    && ("transcript" in f || "text" in f) && Blank(f, "text")
    && ("transcript" in f ==>
          f["transcript"].Null? || (f["transcript"].Arr? && forall v | v in f["transcript"].items :: SilentEntry(v)))
  }

  lemma BlankExactly(f: map<string, Json>, key: string)
    ensures Blank(f, key) <==> StringField(f, key).Some? && TrimSpace(StringField(f, key).value) == ""
  {
    TrimsToNothing("");
    if key in f && f[key].Str? {
      TrimsToNothing(f[key].s);
    }
  }

  lemma NamesExactly(f: map<string, Json>, key: string)
    requires FlexField(f, key).Some?
    ensures Names(f, key) <==> TrimSpace(FlexField(f, key).value) != ""
  {
    TrimsToNothing(FlexField(f, key).value);
  }

  lemma SilentExactly(v: Json)
    ensures SilentEntry(v) <==>
      DecodeEntry(v).Some? && Utterance(DecodeEntry(v).value) == "" && !DecodeEntry(v).value.unrecognized
  {
    if v.Obj? {
      BlankExactly(v.fields, "text");
      BlankExactly(v.fields, "content");
      BlankExactly(v.fields, "words");
    }
  }

  lemma {:induction false} DecodesExactly(items: seq<Json>)
    ensures DecodeEntries(items).Some? <==> forall v | v in items :: DecodeEntry(v).Some?
  {
    if items != [] {
      DecodesExactly(items[1..]);
      assert items == [items[0]] + items[1..];
    }
  }

  lemma AllSilentExactly(items: seq<Json>)
    ensures (forall v | v in items :: SilentEntry(v)) <==>
      DecodeEntries(items).Some? &&
      forall i | 0 <= i < |DecodeEntries(items).value| ::
        Utterance(DecodeEntries(items).value[i]) == "" && !DecodeEntries(items).value[i].unrecognized
  {
    forall v ensures SilentEntry(v) <==>
      DecodeEntry(v).Some? && Utterance(DecodeEntry(v).value) == "" && !DecodeEntry(v).value.unrecognized
    {
      SilentExactly(v);
    }
    DecodesExactly(items);
    if DecodeEntries(items).Some? {
      if items != [] {
        EntryAt(items, 0);
      }
      forall i | 0 <= i < |items| ensures |DecodeEntries(items).value| == |items| && DecodeEntry(items[i]) == Some(DecodeEntries(items).value[i]) {
        EntryAt(items, i);
      }
    }
  }

  /** The other way round, exactly, and in terms of the payload's own fields. */
  lemma EmptyExactly(raw: Json)
    ensures (Decode(raw).Some? && Classify(Decode(raw).value).RecognizedEmpty?) <==> raw.Obj? && EmptyShape(raw.fields)
  {
    if raw.Obj? {
      var f := raw.fields;
      BlankExactly(f, "text");
      if FlexField(f, "id").Some? {
        NamesExactly(f, "id");
      }
      if FlexField(f, "meetingId").Some? {
        NamesExactly(f, "meetingId");
      }
      if "transcript" in f && f["transcript"].Arr? {
        AllSilentExactly(f["transcript"].items);
      }
    }
  }
}
