/** The start screen (src/components/screens/DashboardScreen.tsx): it
    validates an uploaded or dropped file before handing it on, renames and
    deletes saved documents, and labels each document with how long ago it
    was changed. The clock (Date.now), date parsing (new Date(s).getTime(),
    absent for a string that does not parse) and toLocaleDateString are
    parameters. */
module DashboardScreen {
  import opened Common
  import DocumentStore

  datatype File = File(name: string, mimeType: string, size: nat)

  const MaxUploadBytes := 100 * 1024 * 1024

  const NotPdfError := "Please upload a PDF file"
  const TooLargeError := "File too large (max 100MB)"

  /** What handleFile leaves behind: the error shown, and the files handed
      to onUpload. */
  datatype Upload = Upload(error: Option<string>, uploaded: seq<File>)

  /** handleFile: the type is checked first, then the size; an accepted file
      clears the error and is uploaded once. */
  function HandleFile(f: File): (r: Upload)
    ensures f.mimeType != "application/pdf" ==> r == Upload(Some(NotPdfError), [])
    ensures f.mimeType == "application/pdf" && f.size > MaxUploadBytes ==> r == Upload(Some(TooLargeError), [])
    ensures r.uploaded != [] <==> f.mimeType == "application/pdf" && f.size <= MaxUploadBytes
    ensures r.uploaded != [] ==> r == Upload(None, [f])
  {
    if f.mimeType != "application/pdf" then Upload(Some(NotPdfError), [])
    else if f.size > MaxUploadBytes then Upload(Some(TooLargeError), [])
    else Upload(None, [f])
  }

  /** handleDrop: only the first dropped file is considered; dropping
      nothing leaves no error and uploads nothing. */
  function HandleDrop(dropped: seq<File>): (r: Option<Upload>)
    ensures dropped == [] <==> r.None?
    ensures dropped != [] ==> r == Some(HandleFile(dropped[0]))
  {
    if dropped == [] then None else Some(HandleFile(dropped[0]))
  }

  /** The size limit is inclusive: exactly 100 MiB passes, one byte more
      does not; a file of any other type is turned away whatever its
      size. */
  lemma UploadLimitInclusive(name: string, other: string, size: nat)
    requires other != "application/pdf"
    ensures HandleFile(File(name, "application/pdf", 104857600)).uploaded == [File(name, "application/pdf", 104857600)]
    ensures HandleFile(File(name, "application/pdf", 104857601)).error == Some(TooLargeError)
    ensures HandleFile(File(name, other, size)).error == Some(NotPdfError)
  {
  }

  // ---------------------------------------------------------------------------
  // formatRelativeTime

  const MinuteMs := 60000
  const HourMs := 3600000
  const DayMs := 86400000

  /** formatRelativeTime: `parsed` is the parsed time of the document, absent
      when the string does not parse (every comparison with NaN fails, so
      the locale date is shown). Math.floor of the quotient is Dafny's
      division, whose divisors here are positive. */
  function FormatRelativeTime(now: int, parsed: Option<int>, localeDate: string): (r: string)
    ensures parsed.None? ==> r == localeDate
  {
    if parsed.None? then localeDate
    else
      var diff := now - parsed.value;
      var minutes := diff / MinuteMs;
      if minutes < 1 then "just now"
      else if minutes < 60 then NatToString(minutes) + " min ago"
      else
        var hours := minutes / 60;
        if hours < 24 then NatToString(hours) + " hr ago"
        else
          var days := hours / 24;
          if days == 1 then "yesterday"
          else if days < 30 then NatToString(days) + " days ago"
          else localeDate
  }

  /** Whole hours are whole minutes divided by 60, and whole days whole
      hours divided by 24. */
  lemma NestedFloors(diff: int)
    ensures diff / MinuteMs / 60 == diff / HourMs
    ensures diff / MinuteMs / 60 / 24 == diff / DayMs
  {
    HoursOfMinutes(diff);
    DaysOfHours(diff);
  }

  lemma HoursOfMinutes(diff: int)
    ensures diff / 60000 / 60 == diff / 3600000
  {
  }

  lemma DaysOfHours(diff: int)
    ensures diff / 3600000 / 24 == diff / 86400000
  {
  }

  /** The buckets by the difference in milliseconds, a negative difference
      (a time in the future) included. */
  lemma RelativeTimeBuckets(now: int, updated: int, localeDate: string)
    ensures var (diff, r) := (now - updated, FormatRelativeTime(now, Some(updated), localeDate));
      && (diff < MinuteMs ==> r == "just now")
      && (MinuteMs <= diff < HourMs ==> r == NatToString(diff / MinuteMs) + " min ago")
      && (HourMs <= diff < DayMs ==> r == NatToString(diff / HourMs) + " hr ago")
      && (DayMs <= diff < 2 * DayMs ==> r == "yesterday")
      && (2 * DayMs <= diff < 30 * DayMs ==> r == NatToString(diff / DayMs) + " days ago")
      && (diff >= 30 * DayMs ==> r == localeDate)
  {
    var diff := now - updated;
    NestedFloors(diff);
    var m := diff / MinuteMs;
    var h := m / 60;
    if diff < MinuteMs {
      assert m < 1;
    } else if diff < HourMs {
      assert 1 <= m < 60;
    } else if diff < DayMs {
      assert m >= 60 && h == diff / HourMs && h < 24;
    } else {
      assert m >= 60 && h >= 24 && h / 24 == diff / DayMs;
      assert diff < 2 * DayMs ==> h / 24 == 1;
      assert 2 * DayMs <= diff < 30 * DayMs ==> 2 <= h / 24 < 30;
      assert diff >= 30 * DayMs ==> h / 24 >= 30;
    }
  }

  // ---------------------------------------------------------------------------
  // Renaming

  /** handleRename: a blank name does nothing; otherwise the document is
      renamed to the trimmed name, at time `now`. */
  method HandleRename(store: DocumentStore.Store, id: string, renameValue: string, now: string)
    requires store.Valid()
    modifies store
    ensures store.Valid()
    ensures Trim(renameValue) == [] ==> store.docs == old(store.docs)
    ensures Trim(renameValue) != [] && id !in old(store.docs) ==> store.docs == old(store.docs)
    ensures Trim(renameValue) != [] && id in old(store.docs) ==>
      store.docs == old(store.docs)[id := old(store.docs)[id].(filename := Trim(renameValue), updatedAt := now)]
  {
    var name := Trim(renameValue);
    if name == [] {
      return;
    }
    store.RenameDocument(id, name, now);
  }
}
