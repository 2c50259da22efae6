/** The new-knowledge-base form: URL and file sources added under a count
    limit and a size limit, and the save that hands a draft to the list
    owner. A chosen file is read asynchronously: its source is written when
    the read finishes, as a separate action. */
module KnowledgeBaseView {
  import opened Wrappers
  import opened Types
  import Text
  import App

  const MaxSources: nat := 10
  const MaxSizeMb: nat := 10
  const MaxSizeBytes: nat := MaxSizeMb * 1024 * 1024

  const MissingUrl := "URL and its content summary are required."
  const TooManySources := "Cannot add more than 10 sources."
  const TooLarge := "Total size cannot exceed 10MB."
  const MissingName := "Knowledge base name is required."
  const NoSources := "At least one source is required."

  datatype Form = Form(
    name: string,
    sources: seq<KnowledgeSource>,
    currentUrl: string,
    urlContent: string,
    error: string)

  const EmptyForm := Form("", [], "", "", "")

  /** A file chosen in the file input. Its text arrives later, when the
      reader's `onload` runs. */
  datatype SelectedFile = SelectedFile(name: string, size: nat)

  /** A `FileReader` whose `onload` has not run yet: the file, and the
      `sources` array of the render in which the file was chosen, which
      the `onload` closure holds. */
  datatype PendingRead = PendingRead(captured: seq<KnowledgeSource>, file: SelectedFile)

  /** The form's state together with the reads still in flight. */
  datatype Page = Page(form: Form, inFlight: seq<PendingRead>)

  const EmptyPage := Page(EmptyForm, [])

  /** `sources.reduce((acc, s) => acc + s.size, 0)`. */
  function TotalSize(sources: seq<KnowledgeSource>): (r: nat)
    ensures r == 0 <==> forall i :: 0 <= i < |sources| ==> sources[i].size == 0
  {
    if sources == [] then 0
    else TotalSize(sources[..|sources| - 1]) + sources[|sources| - 1].size
  }

  /** The total of a concatenation is the sum of the totals. */
  lemma {:induction false} TotalSizeAppend(a: seq<KnowledgeSource>, b: seq<KnowledgeSource>)
    ensures TotalSize(a + b) == TotalSize(a) + TotalSize(b)
    decreases |b|
  {
    if b == [] {
      assert a + b == a;
    } else {
      assert (a + b)[..|a + b| - 1] == a + b[..|b| - 1];
      TotalSizeAppend(a, b[..|b| - 1]);
    }
  }

  /** Every source counts towards the total. */
  lemma {:induction false} SourceWithinTotal(sources: seq<KnowledgeSource>, i: nat)
    requires i < |sources|
    ensures sources[i].size <= TotalSize(sources)
    decreases |sources|
  {
    if i < |sources| - 1 {
      SourceWithinTotal(sources[..|sources| - 1], i);
    }
  }

  /** The form respects both limits. */
  predicate WithinLimits(f: Form) {
    |f.sources| <= MaxSources && TotalSize(f.sources) <= MaxSizeBytes
  }

  /** The guards shared by both ways of adding a source of `size`; `None`
      when the source may be added. */
  function AddRejection(f: Form, size: nat): (e: Option<string>)
    ensures e.None? <==> |f.sources| < MaxSources && TotalSize(f.sources) + size <= MaxSizeBytes
    ensures e == Some(TooManySources) <==> |f.sources| >= MaxSources
  {
    if |f.sources| >= MaxSources then Some(TooManySources)
    else if TotalSize(f.sources) + size > MaxSizeBytes then Some(TooLarge)
    else None
  }

  function Append(f: Form, source: KnowledgeSource): (r: Form)
    ensures r.sources == f.sources + [source]
    ensures TotalSize(r.sources) == TotalSize(f.sources) + source.size
  {
    TotalSizeAppend(f.sources, [source]);
    assert [source][..0] == [];
    f.(sources := f.sources + [source])
  }

  /** `handleAddUrl` at time `now`. The size of a pasted summary is its
      length in UTF-16 units. */
  function HandleAddUrl(f: Form, now: nat): (r: Form)
    ensures f.currentUrl == "" || f.urlContent == "" ==> r == f.(error := MissingUrl)
    ensures r.sources != f.sources ==>
              && f.currentUrl != "" && f.urlContent != ""
              && r.sources == f.sources
                 + [KnowledgeSource(Text.Digits(now), Url, f.currentUrl, f.urlContent,
                                    Text.JsLength(f.urlContent))]
              && r.currentUrl == "" && r.urlContent == "" && r.error == ""
    ensures r.sources == f.sources ==> r.error != "" && r.currentUrl == f.currentUrl
    ensures r.name == f.name
  {
    if f.currentUrl == "" || f.urlContent == "" then f.(error := MissingUrl)
    else
      var size := Text.JsLength(f.urlContent);
      match AddRejection(f, size)
      case Some(message) => f.(error := message)
      case None =>
        var source := KnowledgeSource(Text.Digits(now), Url, f.currentUrl, f.urlContent, size);
        Append(f, source).(currentUrl := "", urlContent := "", error := "")
  }

  /** `handleFileChange`: the guards run and the error is cleared when the
      file is chosen, but the sources do not change yet; an accepted file
      starts a read that captures the current sources. */
  function HandleFileChange(f: Form, file: Option<SelectedFile>): (r: (Form, Option<PendingRead>))
    ensures file.None? ==> r == (f, None)
    ensures r.0.sources == f.sources && r.0.name == f.name
    ensures r.0.currentUrl == f.currentUrl && r.0.urlContent == f.urlContent
    ensures r.1.Some? <==>
              file.Some? && |f.sources| < MaxSources && TotalSize(f.sources) + file.value.size <= MaxSizeBytes
    ensures r.1.Some? ==> r.1.value == PendingRead(f.sources, file.value) && r.0.error == ""
    ensures file.Some? && r.1.None? ==> r.0.error != ""
  {
    match file
    case None => (f, None)
    case Some(chosen) =>
      match AddRejection(f, chosen.size)
      case Some(message) => (f.(error := message), None)
      case None => (f.(error := ""), Some(PendingRead(f.sources, chosen)))
  }

  /** The source a finished read adds: its id is the time of the `onload`. */
  function FileSource(file: SelectedFile, content: string, now: nat): KnowledgeSource {
    KnowledgeSource(Text.Digits(now), File, file.name, content, file.size)
  }

  /** The reader's `onload` at time `now` with the file's text: it writes
      the captured array plus the file, so a source added to the form
      after the file was chosen is overwritten. */
  function FileLoaded(f: Form, read: PendingRead, content: string, now: nat): (r: Form)
    ensures |r.sources| == |read.captured| + 1
    ensures r.sources[..|read.captured|] == read.captured
    ensures r.sources[|read.captured|] == FileSource(read.file, content, now)
    ensures r.(sources := f.sources) == f
  {
    f.(sources := read.captured + [FileSource(read.file, content, now)])
  }

  /** Adding a URL source succeeds exactly when both fields are filled and
      both limits leave room for it. */
  lemma AddUrlAcceptedIff(f: Form, now: nat)
    ensures HandleAddUrl(f, now).sources != f.sources <==>
              && f.currentUrl != "" && f.urlContent != ""
              && |f.sources| < MaxSources
              && TotalSize(f.sources) + Text.JsLength(f.urlContent) <= MaxSizeBytes
  {
  }

  /** A read starts exactly when a file is chosen and both limits leave room
      for it; when nothing happens before its `onload`, the file is
      appended to the sources. */
  lemma FileAcceptedIff(f: Form, file: Option<SelectedFile>, content: string, now: nat)
    ensures HandleFileChange(f, file).1.Some? <==>
              && file.Some?
              && |f.sources| < MaxSources
              && TotalSize(f.sources) + file.value.size <= MaxSizeBytes
    ensures var (g, read) := HandleFileChange(f, file);
            read.Some? ==>
              FileLoaded(g, read.value, content, now).sources == f.sources + [FileSource(file.value, content, now)]
  {
    var (g, read) := HandleFileChange(f, file);
    if read.Some? {
      var r := FileLoaded(g, read.value, content, now);
      assert r.sources == r.sources[..|f.sources|] + [r.sources[|f.sources|]];
    }
  }

  /** What the user does with the form, and the completion of a read. */
  datatype Action =
    | EditName(name: string)
    | EditUrl(url: string)
    | EditContent(content: string)
    | AddUrl(now: nat)
    | ChooseFile(file: Option<SelectedFile>)
    | ReadDone(index: nat, content: string, now: nat)

  /** One action on the page. `ReadDone(k, …)` runs the `onload` of the
      k-th read in flight, in whatever order the reads finish; it does
      nothing when there is no such read. */
  function Apply(p: Page, a: Action): Page {
    match a
    case EditName(v) => p.(form := p.form.(name := v))
    case EditUrl(v) => p.(form := p.form.(currentUrl := v))
    case EditContent(v) => p.(form := p.form.(urlContent := v))
    case AddUrl(now) => p.(form := HandleAddUrl(p.form, now))
    case ChooseFile(file) =>
      var (f, read) := HandleFileChange(p.form, file);
      Page(f, if read.Some? then p.inFlight + [read.value] else p.inFlight)
    case ReadDone(k, content, now) =>
      if k < |p.inFlight| then
        Page(FileLoaded(p.form, p.inFlight[k], content, now), p.inFlight[..k] + p.inFlight[k + 1..])
      else p
  }

  /** A read in flight passed both guards against the sources it captured. */
  predicate ReadFits(read: PendingRead) {
    |read.captured| < MaxSources && TotalSize(read.captured) + read.file.size <= MaxSizeBytes
  }

  /** The form is within both limits, and so is every read in flight. */
  predicate PageWithinLimits(p: Page) {
    && WithinLimits(p.form)
    && forall k :: 0 <= k < |p.inFlight| ==> ReadFits(p.inFlight[k])
  }

  /** A read that passed the guards writes a list within both limits, even
      though the sources it overwrites may have changed meanwhile. */
  lemma FileLoadedWithinLimits(f: Form, read: PendingRead, content: string, now: nat)
    requires ReadFits(read)
    ensures WithinLimits(FileLoaded(f, read, content, now))
  {
    TotalSizeAppend(read.captured, [FileSource(read.file, content, now)]);
    assert [FileSource(read.file, content, now)][..0] == [];
  }

  /** Every action keeps the form and every read in flight within both
      limits. */
  lemma ApplyKeepsLimits(p: Page, a: Action)
    requires PageWithinLimits(p)
    ensures PageWithinLimits(Apply(p, a))
  {
    match a
    case ChooseFile(file) =>
      var (f, read) := HandleFileChange(p.form, file);
      var pending := if read.Some? then p.inFlight + [read.value] else p.inFlight;
      forall k | 0 <= k < |pending|
        ensures ReadFits(pending[k])
      {
        if k < |p.inFlight| {
          assert pending[k] == p.inFlight[k];
        }
      }
    case ReadDone(k, content, now) =>
      if k < |p.inFlight| {
        FileLoadedWithinLimits(p.form, p.inFlight[k], content, now);
        var pending := p.inFlight[..k] + p.inFlight[k + 1..];
        forall j | 0 <= j < |pending|
          ensures ReadFits(pending[j])
        {
          if j < k {
            assert pending[j] == p.inFlight[j];
          } else {
            assert pending[j] == p.inFlight[j + 1];
          }
        }
      }
    case _ =>
  }

  function ApplyAll(p: Page, actions: seq<Action>): Page
    decreases |actions|
  {
    if actions == [] then p else ApplyAll(Apply(p, actions[0]), actions[1..])
  }

  /** Whatever the user does and in whatever order the reads finish, a form
      never holds more than ten sources or more than 10 MB. */
  lemma {:induction false} FormNeverExceedsLimits(p: Page, actions: seq<Action>)
    requires PageWithinLimits(p)
    ensures PageWithinLimits(ApplyAll(p, actions))
    decreases |actions|
  {
    if actions != [] {
      ApplyKeepsLimits(p, actions[0]);
      FormNeverExceedsLimits(Apply(p, actions[0]), actions[1..]);
    }
  }

  lemma EmptyFormNeverExceedsLimits(actions: seq<Action>)
    ensures WithinLimits(ApplyAll(EmptyPage, actions).form)
    ensures |ApplyAll(EmptyPage, actions).form.sources| <= 10
    ensures TotalSize(ApplyAll(EmptyPage, actions).form.sources) <= 10485760
  {
    FormNeverExceedsLimits(EmptyPage, actions);
  }

  /** The stale write as written: a URL added while a file is being read is
      gone once the read finishes, and only the file remains. */
  lemma UrlAddedDuringReadIsLost(url: string, summary: string, file: SelectedFile, content: string,
                                 t1: nat, t2: nat)
    requires url != "" && summary != ""
    requires file.size + Text.JsLength(summary) <= MaxSizeBytes
    ensures var p := ApplyAll(EmptyPage, [EditUrl(url), EditContent(summary), ChooseFile(Some(file)),
                                          AddUrl(t1), ReadDone(0, content, t2)]);
            && p.form.sources == [FileSource(file, content, t2)]
            && p.inFlight == []
  {
    var actions := [EditUrl(url), EditContent(summary), ChooseFile(Some(file)),
                    AddUrl(t1), ReadDone(0, content, t2)];
    var filled := Form("", [], url, summary, "");
    var p2 := Page(filled, [PendingRead([], file)]);
    assert Apply(Apply(Apply(EmptyPage, actions[0]), actions[1]), actions[2]) == p2 by {
      assert TotalSize(filled.sources) == 0;
    }
    var p3 := Apply(p2, actions[3]);
    assert p3.inFlight == p2.inFlight;
    var p4 := Apply(p3, actions[4]);
    assert p4 == Page(p3.form.(sources := [] + [FileSource(file, content, t2)]), []);
    ApplyAllUnfolds(EmptyPage, actions);
  }

  /** A run of five actions is their applications in turn. */
  lemma ApplyAllUnfolds(p: Page, actions: seq<Action>)
    requires |actions| == 5
    ensures ApplyAll(p, actions)
            == Apply(Apply(Apply(Apply(Apply(p, actions[0]), actions[1]), actions[2]), actions[3]), actions[4])
  {
    var p1 := Apply(p, actions[0]);
    var p2 := Apply(p1, actions[1]);
    var p3 := Apply(p2, actions[2]);
    var p4 := Apply(p3, actions[3]);
    var p5 := Apply(p4, actions[4]);
    assert ApplyAll(p, actions) == ApplyAll(p1, actions[1..]);
    assert actions[1..][1..] == actions[2..];
    assert ApplyAll(p1, actions[1..]) == ApplyAll(p2, actions[2..]);
    assert actions[2..][1..] == actions[3..];
    assert ApplyAll(p2, actions[2..]) == ApplyAll(p3, actions[3..]);
    assert actions[3..][1..] == actions[4..];
    assert ApplyAll(p3, actions[3..]) == ApplyAll(p4, actions[4..]);
    assert actions[4..][1..] == [];
    assert ApplyAll(p4, actions[4..]) == ApplyAll(p5, []);
  }

  /** The `onload` as evidently intended: it appends to the sources as they
      are when the read finishes, re-checking both limits, so nothing added
      meanwhile is lost and the limits still hold. */
  function FileLoadedFresh(f: Form, read: PendingRead, content: string, now: nat): (r: Form)
    ensures |f.sources| <= |r.sources|
    ensures r.sources[..|f.sources|] == f.sources
    ensures AddRejection(f, read.file.size).None? ==>
              r.sources == f.sources + [FileSource(read.file, content, now)]
    ensures AddRejection(f, read.file.size).Some? ==>
              r == f.(error := AddRejection(f, read.file.size).value)
    ensures WithinLimits(f) ==> WithinLimits(r)
  {
    match AddRejection(f, read.file.size)
    case Some(message) => f.(error := message)
    case None => Append(f, FileSource(read.file, content, now))
  }

  /** `handleSave`: the draft handed to the list owner, or the message the
      form shows instead. The name is checked trimmed but emitted as typed. */
  function HandleSave(f: Form): (r: Result<KnowledgeBaseDraft, string>)
    ensures r.Failure? <==> Text.Trim(f.name) == "" || f.sources == []
    ensures r.Failure? && Text.Trim(f.name) == "" ==> r.error == MissingName
    ensures r.Failure? && Text.Trim(f.name) != "" ==> r.error == NoSources
    ensures r.Success? ==> r.value == KnowledgeBaseDraft(f.name, f.sources, TotalSize(f.sources))
  {
    if Text.Trim(f.name) == "" then Failure(MissingName)
    else if f.sources == [] then Failure(NoSources)
    else Success(KnowledgeBaseDraft(f.name, f.sources, TotalSize(f.sources)))
  }

  /** A whitespace-only name is rejected, whatever the sources. */
  lemma BlankNameRejected(f: Form)
    requires Text.Blank(f.name)
    ensures HandleSave(f) == Failure(MissingName)
  {
    Text.TrimEmptyIffBlank(f.name);
  }

  /** The page's save: add the draft and close the dialog; a rejected form
      keeps the dialog open and the list unchanged. */
  function Submit(s: App.AppState, f: Form, now: nat, createdAt: string): (r: (App.AppState, bool))
    ensures HandleSave(f).Failure? ==> r == (s, true)
    ensures HandleSave(f).Success? ==> !r.1 && r.0 == App.AddKnowledgeBase(s, HandleSave(f).value, now, createdAt)
  {
    match HandleSave(f)
    case Failure(_) => (s, true)
    case Success(kb) => (App.AddKnowledgeBase(s, kb, now, createdAt), false)
  }

  /** A knowledge base saved from a form that the user built from scratch has
      between one and ten sources, and its recorded size is their total and
      at most 10 MB. */
  lemma SavedKnowledgeBaseWithinLimits(s: App.AppState, actions: seq<Action>, now: nat, createdAt: string)
    requires HandleSave(ApplyAll(EmptyPage, actions).form).Success?
    ensures var r := Submit(s, ApplyAll(EmptyPage, actions).form, now, createdAt).0;
            var kb := r.knowledgeBases[|s.knowledgeBases|];
            && 1 <= |kb.sources| <= MaxSources
            && kb.totalSize == TotalSize(kb.sources) <= MaxSizeBytes
  {
    EmptyFormNeverExceedsLimits(actions);
  }
}
