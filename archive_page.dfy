/** The archive page: a list of files shown as an accordion in which at most one file is
    open, and the colour of each file's status badge. */
module ArchivePage {
  import opened Common

  datatype FileStatus = OPEN | SEALED | DORMANT

  /** An archive file: its id, its label (`labelText`, since `label` is a Dafny keyword) and
      its status (the summary and the detail text are prose the page only displays). */
  datatype ArchiveFile = ArchiveFile(id: string, labelText: string, status: FileStatus)

  const FILES: seq<ArchiveFile> := [
    ArchiveFile("A-01", "Initial Surface Alignment", OPEN),
    ArchiveFile("B-12", "Silent Admission Protocol", OPEN),
    ArchiveFile("C-27", "Obsolete Channels", DORMANT),
    ArchiveFile("X-41", "Unresolved Patterns", SEALED)
  ]

  predicate IdsDistinct(files: seq<ArchiveFile>) {
    forall i, j :: 0 <= i < j < |files| ==> files[i].id != files[j].id
  }

  /** `FILES[0]?.id ?? null`: the first file is open at first, and none is when the list
      is empty. */
  function InitialOpenId(files: seq<ArchiveFile>): (r: Option<string>)
    ensures r.None? <==> files == []
    ensures r.Some? ==> r.value == files[0].id
  {
    if files == [] then None else Some(files[0].id)
  }

  /** `handleToggle(id)`: the open file closes; any other file opens in its place. */
  function Toggled(current: Option<string>, id: string): Option<string> {
    if current == Some(id) then None else Some(id)
  }

  /** A row is drawn open when its id is the open id. */
  predicate IsOpen(openId: Option<string>, file: ArchiveFile) {
    openId == Some(file.id)
  }

  /** `statusColor` of a row's badge. */
  function StatusColor(status: FileStatus): string {
    if status == OPEN then "#facc15" else if status == SEALED then "#f97373" else "#9ca3af"
  }

  /** The page's files have distinct ids, and the first one is open at first. */
  lemma FilesShape()
    ensures IdsDistinct(FILES)
    ensures InitialOpenId(FILES) == Some("A-01") && IsOpen(InitialOpenId(FILES), FILES[0])
  {
  }

  /** With distinct ids, whatever the open id, at most one row is open. */
  lemma AtMostOneOpen(files: seq<ArchiveFile>, openId: Option<string>)
    requires IdsDistinct(files)
    ensures forall i, j :: 0 <= i < j < |files| ==> !(IsOpen(openId, files[i]) && IsOpen(openId, files[j]))
  {
  }

  /** Toggling the open file closes every row; toggling any other file opens exactly the
      rows with its id, which closes the file that was open before. */
  lemma {:induction false} ToggleExact(files: seq<ArchiveFile>, openId: Option<string>, id: string)
    ensures openId == Some(id) ==> forall f :: f in files ==> !IsOpen(Toggled(openId, id), f)
    ensures openId != Some(id) ==> forall f :: f in files ==> (IsOpen(Toggled(openId, id), f) <==> f.id == id)
    ensures openId != Some(id) && openId.Some? ==>
              forall f :: f in files && IsOpen(openId, f) ==> !IsOpen(Toggled(openId, id), f)
  {
  }

  /** Two toggles of the same file: an open file is open again, and a file that was not open
      leaves every row closed. */
  lemma ToggleTwice(openId: Option<string>, id: string)
    ensures Toggled(Toggled(openId, id), id) == if openId == Some(id) then Some(id) else None
  {
  }

  /** The three statuses get three different colours. */
  lemma StatusColorsDistinct(s1: FileStatus, s2: FileStatus)
    ensures StatusColor(s1) == StatusColor(s2) ==> s1 == s2
    ensures StatusColor(OPEN) == "#facc15" && StatusColor(SEALED) == "#f97373" && StatusColor(DORMANT) == "#9ca3af"
  {
  }

  /** The page's accordion state. */
  class Archive {
    var openId: Option<string>

    constructor ()
      ensures openId == InitialOpenId(FILES)
    {
      openId := InitialOpenId(FILES);
    }

    /** `handleToggle(id)` */
    method HandleToggle(id: string)
      modifies this
      ensures openId == Toggled(old(openId), id)
      ensures old(openId) == Some(id) ==> openId.None?
      ensures old(openId) != Some(id) ==> forall f :: f in FILES ==> (IsOpen(openId, f) <==> f.id == id)
    {
      ToggleExact(FILES, openId, id);
      openId := Toggled(openId, id);
    }
  }
}
