/** The files screen (src/pages/FilesPage.jsx): its local state, the file
    list refresh, file selection by picker and by drag and drop, the upload
    submit flow, and the byte-size label. Every handler is a pure step from
    the current state to the next state plus the effects it issues (alerts,
    timers, requests); the responses to those requests come back as inputs
    to the completion steps. */
module FilesPage {
  import opened Json
  import opened Http
  import opened UploadForm
  import Api

  const ListUrl := "/api/files/"
  /** The user id in the screen's upload path is fixed to 1. */
  const UploadUrl := "/api/files/1/upload/"
  /** The size guard: 10 MiB. */
  const MaxSize: nat := 10 * 1024 * 1024
  const BannerMillis: nat := 5000
  const NoFileAlert := "Selecione um arquivo antes de enviar."
  const SuccessAlert := "Arquivo enviado com sucesso!"

  /** The component's `useState` slots. `files` holds whatever the list
      response carried, as the source stores it unchecked. */
  datatype Screen = Screen(
    files: Json,
    description: string,
    fileType: string,
    selected: Option<File>,
    loading: bool,
    showNotification: bool,
    isDragOver: bool)

  /** The upload draft: the part of the state a successful upload clears. */
  datatype Draft = Draft(selected: Option<File>, description: string, fileType: string)

  function DraftOf(s: Screen): Draft {
    Draft(s.selected, s.description, s.fileType)
  }

  datatype Effect =
    | Alert(text: string)
    | HideBannerAfter(millis: nat)
    | FetchList(url: string)
    | PostUpload(url: string, fields: seq<FormField>)

  /** The state a handler leaves and the effects it issues, in order. */
  datatype Step = Step(screen: Screen, effects: seq<Effect>)

  predicate IssuesUpload(effects: seq<Effect>) {
    exists i :: 0 <= i < |effects| && effects[i].PostUpload?
  }

  // ----- mounting and the file list --------------------------------------

  /** First render: empty list and draft, then the mount effect fetches the
      list. */
  function Mount(): (st: Step)
    ensures st.screen.files == JArr([]) && DraftOf(st.screen) == Draft(None, "", "")
    ensures !st.screen.loading && !st.screen.showNotification && !st.screen.isDragOver
    ensures st.effects == [FetchList(ListUrl)]
  {
    Step(Screen(JArr([]), "", "", None, false, false, false), [FetchList(ListUrl)])
  }

  /** `fetchFiles` once its `fetch` has settled: a 2xx response with a JSON
      body replaces the list (`data || []`); a non-2xx response, a body that
      does not parse, or a rejected `fetch` is only logged. */
  function ReceiveFiles(s: Screen, outcome: FetchOutcome): (r: Screen)
    ensures r.(files := s.files) == s
    ensures outcome.Resolved? && IsOk(outcome.response) && outcome.response.body.Success? ==>
              r.files == (if Truthy(Some(outcome.response.body.value))
                          then outcome.response.body.value else JArr([]))
    ensures !(outcome.Resolved? && IsOk(outcome.response) && outcome.response.body.Success?) ==>
              r == s
  {
    match outcome
    case Rejected(_) => s
    case Resolved(resp) =>
      if IsOk(resp) then
        match resp.body
        case Success(data) => s.(files := if Truthy(Some(data)) then data else JArr([]))
        case Failure(_) => s
      else s
  }

  /** After a successful list fetch the list is never a falsy value: a
      `null`, `false`, `0` or `""` body leaves the empty list instead. */
  lemma ReceivedListTruthy(s: Screen, resp: Response)
    requires IsOk(resp) && resp.body.Success?
    ensures Truthy(Some(ReceiveFiles(s, Resolved(resp)).files))
    ensures !Truthy(Some(resp.body.value)) ==> ReceiveFiles(s, Resolved(resp)).files == JArr([])
  {
  }

  /** The screen lists files from the same URL the API wrapper's
      `listAllFiles` uses, but sends no headers of its own. */
  lemma ListUrlMatchesApi(session: Api.Session)
    ensures Api.ListAllFiles(session).url == ListUrl
  {
  }

  // ----- selection -------------------------------------------------------

  /** `handleFileSelect`: a missing file (the picker's `files[0]` when
      nothing was picked) keeps the current selection. */
  function SelectFile(s: Screen, file: Option<File>): (r: Screen)
    ensures file.Some? ==> r == s.(selected := file)
    ensures file.None? ==> r == s
  {
    if file.Some? then s.(selected := file) else s
  }

  function DragOver(s: Screen): (r: Screen)
    ensures r.isDragOver && r.(isDragOver := s.isDragOver) == s
  {
    s.(isDragOver := true)
  }

  function DragLeave(s: Screen): (r: Screen)
    ensures !r.isDragOver && r.(isDragOver := s.isDragOver) == s
  {
    s.(isDragOver := false)
  }

  /** `handleDrop`: the highlight always goes off; only the first dropped
      file is taken, and an empty drop keeps the current selection. */
  function Drop(s: Screen, dropped: seq<File>): (r: Screen)
    ensures !r.isDragOver
    ensures |dropped| > 0 ==> r.selected == Some(dropped[0])
    ensures |dropped| == 0 ==> r.selected == s.selected
    ensures r.(isDragOver := s.isDragOver, selected := s.selected) == s
  {
    var cleared := s.(isDragOver := false);
    if |dropped| > 0 then SelectFile(cleared, Some(dropped[0])) else cleared
  }

  /** Dropping files is choosing the first of them in the picker and then
      leaving the drop zone. */
  lemma DropIsSelectFirst(s: Screen, dropped: seq<File>)
    requires |dropped| > 0
    ensures Drop(s, dropped) == DragLeave(SelectFile(s, Some(dropped[0])))
    ensures Drop(s, dropped) == SelectFile(DragLeave(s), Some(dropped[0]))
  {
  }

  /** The "Remover" button drops the selection and nothing else. */
  function RemoveSelection(s: Screen): (r: Screen)
    ensures r.selected.None? && r.(selected := s.selected) == s
  {
    s.(selected := None)
  }

  // ----- upload ----------------------------------------------------------

  /** `handleUpload` up to the `await fetch`: with no file it alerts and
      changes nothing; with a file over 10 MiB it raises the banner, schedules
      its hiding and sends nothing; otherwise it sets `loading` and posts the
      form. */
  function SubmitUpload(s: Screen): (st: Step)
    ensures s.selected.None? ==> st == Step(s, [Alert(NoFileAlert)])
    ensures s.selected.Some? && s.selected.value.size > MaxSize ==>
              st == Step(s.(showNotification := true), [HideBannerAfter(BannerMillis)])
    ensures s.selected.Some? && s.selected.value.size <= MaxSize ==>
              st.screen == s.(loading := true)
              && st.effects == [PostUpload(UploadUrl, Build(s.selected.value, s.description, s.fileType))]
  {
    match s.selected
    case None => Step(s, [Alert(NoFileAlert)])
    case Some(file) =>
      if file.size > MaxSize then
        Step(s.(showNotification := true), [HideBannerAfter(BannerMillis)])
      else
        Step(s.(loading := true), [PostUpload(UploadUrl, Build(file, s.description, s.fileType))])
  }

  /** A request goes out exactly when a file is selected and it is at most
      10 MiB; in particular an oversize file never yields a request. */
  lemma {:induction false} UploadGuard(s: Screen)
    ensures IssuesUpload(SubmitUpload(s).effects) <==> s.selected.Some? && s.selected.value.size <= MaxSize
  {
    var st := SubmitUpload(s);
    if s.selected.Some? && s.selected.value.size <= MaxSize {
      assert st.effects[0].PostUpload?;
    } else if s.selected.None? {
      assert st.effects == [Alert(NoFileAlert)];
      assert forall i :: 0 <= i < |st.effects| ==> !st.effects[i].PostUpload?;
    } else {
      assert st.effects == [HideBannerAfter(BannerMillis)];
      assert forall i :: 0 <= i < |st.effects| ==> !st.effects[i].PostUpload?;
    }
  }

  /** The guard's comparison is strict: a file of exactly 10 485 760 bytes is
      sent, one byte more is refused. */
  lemma SizeBoundary(s: Screen, name: string)
    ensures SubmitUpload(s.(selected := Some(File(name, 10485760)))).effects[0].PostUpload?
    ensures SubmitUpload(s.(selected := Some(File(name, 10485761)))).effects
            == [HideBannerAfter(BannerMillis)]
  {
  }

  /** `res.ok || res.status === 201`: the second test adds nothing, since 201
      is already a 2xx status. */
  lemma CreatedIsOk(r: Response)
    ensures (IsOk(r) || r.status == 201) <==> IsOk(r)
  {
  }

  /** `handleUpload` after the `await fetch`: on success the draft is cleared,
      the list is refetched and the success alert follows; on a non-2xx
      response the response text is alerted; on a rejected `fetch` the error
      message is. `loading` is cleared on every path (`finally`). */
  function FinishUpload(s: Screen, outcome: FetchOutcome): (st: Step)
    ensures !st.screen.loading
    ensures outcome.Resolved? && IsOk(outcome.response) ==>
              DraftOf(st.screen) == Draft(None, "", "")
              && st.effects == [FetchList(ListUrl), Alert(SuccessAlert)]
    ensures outcome.Resolved? && !IsOk(outcome.response) ==>
              DraftOf(st.screen) == DraftOf(s)
              && st.effects == [Alert("Erro ao enviar: " + outcome.response.text)]
    ensures outcome.Rejected? ==>
              DraftOf(st.screen) == DraftOf(s)
              && st.effects == [Alert("Erro: " + outcome.error.message)]
    ensures st.screen.files == s.files && st.screen.showNotification == s.showNotification
    ensures st.screen.isDragOver == s.isDragOver
  {
    match outcome
    case Resolved(res) =>
      if IsOk(res) || res.status == 201 then
        Step(s.(description := "", fileType := "", selected := None, loading := false),
             [FetchList(ListUrl), Alert(SuccessAlert)])
      else
        Step(s.(loading := false), [Alert("Erro ao enviar: " + res.text)])
    case Rejected(err) =>
      Step(s.(loading := false), [Alert("Erro: " + err.message)])
  }

  /** The `loading` flag over a whole submission: untouched when validation
      fails, true while the accepted request is in flight, and false again
      whatever the request's outcome. */
  lemma LoadingLifecycle(s: Screen, outcome: FetchOutcome)
    ensures !IssuesUpload(SubmitUpload(s).effects) ==> SubmitUpload(s).screen.loading == s.loading
    ensures IssuesUpload(SubmitUpload(s).effects) ==> SubmitUpload(s).screen.loading
    ensures !FinishUpload(SubmitUpload(s).screen, outcome).screen.loading
  {
    UploadGuard(s);
  }

  /** The draft survives a failed upload untouched, so the user can retry
      with the same file, description and type. */
  lemma FailedUploadKeepsDraft(s: Screen, outcome: FetchOutcome)
    requires s.selected.Some? && s.selected.value.size <= MaxSize
    requires !(outcome.Resolved? && IsOk(outcome.response))
    ensures DraftOf(FinishUpload(SubmitUpload(s).screen, outcome).screen) == DraftOf(s)
  {
  }

  /** The screen's request carries the same form, to the same path, as the
      API wrapper's `uploadFile` for user 1; it differs only in sending no
      `Authorization` header, since it calls `fetch` directly. */
  lemma UploadMatchesApi(s: Screen, session: Api.Session)
    requires s.selected.Some? && s.selected.value.size <= MaxSize
    ensures SubmitUpload(s).effects[0].url == Api.UploadFile(session, "1", s.selected.value, s.description, s.fileType).url
    ensures Api.UploadFile(session, "1", s.selected.value, s.description, s.fileType).config["body"]
            == Api.Payload(Api.Form(SubmitUpload(s).effects[0].fields))
  {
  }

  // ----- byte-size label -------------------------------------------------

  const K: nat := 1024
  const Sizes := ["Bytes", "KB", "MB", "GB"]

  function Pow(b: nat, e: nat): nat {
    if e == 0 then 1 else b * Pow(b, e - 1)
  }

  lemma {:induction false} PowPositive(e: nat)
    ensures Pow(K, e) >= 1
  {
    if e > 0 {
      PowPositive(e - 1);
    }
  }

  lemma {:induction false} PowMonotone(d: nat, e: nat)
    requires d <= e
    ensures Pow(K, d) <= Pow(K, e)
  {
    if d < e {
      PowMonotone(d, e - 1);
      PowPositive(e - 1);
    }
  }

  /** The unit index in exact arithmetic: the largest `i` with
      `1024^i <= bytes`. */
  function UnitIndex(bytes: nat): (i: nat)
    requires bytes >= 1
    ensures Pow(K, i) <= bytes < Pow(K, i + 1)
  {
    if bytes < K then 0
    else
      var j := UnitIndex(bytes / K);
      assert Pow(K, j + 1) == K * Pow(K, j);
      assert Pow(K, j + 2) == K * Pow(K, j + 1);
      assert K * Pow(K, j) <= K * (bytes / K) <= bytes;
      assert bytes < K * (bytes / K + 1) <= K * Pow(K, j + 1);
      j + 1
  }

  /** No larger index fits under `bytes`, and any index that brackets
      `bytes` the same way is this one. */
  lemma UnitIndexIsLargest(bytes: nat, j: nat)
    requires bytes >= 1
    ensures Pow(K, j) <= bytes ==> j <= UnitIndex(bytes)
    ensures Pow(K, j) <= bytes < Pow(K, j + 1) ==> j == UnitIndex(bytes)
  {
    var i := UnitIndex(bytes);
    if j > i {
      PowMonotone(i + 1, j);
    }
    if j < i {
      PowMonotone(j + 1, i);
    }
  }

  /** The label `formatFileSize` prints: the amount (before rounding to two
      decimals) and the unit name; `sizes[i]` past the table's end is
      `undefined`. */
  datatype SizeLabel = SizeLabel(amount: real, unit: string)

  function UnitName(i: nat): string {
    if i < |Sizes| then Sizes[i] else "undefined"
  }

  /** An exact quotient of `b` by `p` with `p <= b < 1024 * p` lies in
      [1, 1024). */
  lemma QuotientBounds(b: nat, p: nat)
    requires 1 <= p <= b < K * p
    ensures 1.0 <= b as real / p as real < K as real
  {
  }

  /** The index stays inside the four-entry table exactly below 1024^4. */
  lemma IndexInTable(bytes: nat)
    requires bytes >= 1
    ensures UnitIndex(bytes) < |Sizes| <==> bytes < Pow(K, 4)
  {
  }

  /** The exact quotient `bytes / 1024^i` lies in [1, 1024). */
  lemma ScaleFacts(bytes: nat)
    requires bytes >= 1
    ensures Pow(K, UnitIndex(bytes)) >= 1
    ensures 1.0 <= bytes as real / Pow(K, UnitIndex(bytes)) as real < K as real
  {
    var i := UnitIndex(bytes);
    PowPositive(i);
    assert Pow(K, i + 1) == K * Pow(K, i);
    QuotientBounds(bytes, Pow(K, i));
  }

  /** `formatFileSize`, without the floating-point rounding of the amount. */
  function FormatFileSize(bytes: nat): (l: SizeLabel)
    ensures bytes == 0 ==> l == SizeLabel(0.0, "Bytes")
    ensures 1 <= bytes < K ==> l == SizeLabel(bytes as real, "Bytes")
    ensures bytes >= 1 ==> l.amount == bytes as real / Pow(K, UnitIndex(bytes)) as real
    ensures bytes >= 1 ==> 1.0 <= l.amount < K as real
    ensures bytes >= 1 ==> l.unit == UnitName(UnitIndex(bytes))
    ensures 1 <= bytes < Pow(K, 4) ==> l.unit in Sizes && l.unit == Sizes[UnitIndex(bytes)]
    ensures bytes >= Pow(K, 4) ==> UnitIndex(bytes) >= 4 && l.unit == "undefined"
  {
    if bytes == 0 then SizeLabel(0.0, "Bytes")
    else
      var i := UnitIndex(bytes);
      ScaleFacts(bytes);
      IndexInTable(bytes);
      SizeLabel(bytes as real / Pow(K, i) as real, UnitName(i))
  }

  /** Concrete labels: 2048 bytes is 2 KB, and the 10 MiB guard value is
      10 MB. */
  lemma LabelExamples()
    ensures FormatFileSize(2048) == SizeLabel(2.0, "KB")
    ensures FormatFileSize(MaxSize) == SizeLabel(10.0, "MB")
  {
  }
}
