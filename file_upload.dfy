/** The file picker of RehabHub (RehabHub/src/shared/components/FileUpload.tsx):
    it checks a chosen or dropped file against a size limit and an accept
    list before handing it on. */
module FileUpload {
  import opened Wrappers
  import opened Strings

  /** The `accept` default: any video MIME type. */
  const DefaultAccept: string := "video/*"
  /** The `maxSize` default: 100 MiB. */
  const DefaultMaxSize: nat := 100 * 1024 * 1024

  /** A browser `File`: its name, its MIME `type` and its size in bytes. */
  datatype File = File(name: string, mimeType: string, size: nat)

  /** Why a file was refused; the user-facing message shows the limit in
      MB or the accept string. */
  datatype UploadError = TooLarge(maxSize: nat) | UnsupportedType(accept: string)

  /** The accept entries: `accept.split(',').map(type => type.trim())`. */
  function AcceptedTypes(accept: string): (types: seq<string>)
    ensures |types| >= 1
  {
    var parts := Split(accept, ',');
    seq(|parts|, i requires 0 <= i < |parts| => Trim(parts[i]))
  }

  /** Whether one accept entry admits a file of the given MIME type and
      lower-cased name. */
  function EntryMatches(entry: string, mimeType: string, lowerName: string): (r: bool)
    ensures EndsWith(entry, "/*") ==> (r <==> StartsWith(mimeType, entry[..|entry| - 1]))
    ensures !EndsWith(entry, "/*") && '/' in entry ==> (r <==> mimeType == entry)
    ensures '/' !in entry ==> (r <==> StartsWith(entry, ".") && EndsWith(lowerName, entry))
  {
    if EndsWith(entry, "/*") then
      assert entry[|entry| - 2] == '/';
      StartsWith(mimeType, entry[..|entry| - 1])
    else if '/' in entry then mimeType == entry
    else if StartsWith(entry, ".") then EndsWith(lowerName, entry)
    else false
  }

  /** `acceptedTypes.some(...)`. */
  function SomeEntryMatches(types: seq<string>, mimeType: string, lowerName: string): (r: bool)
    ensures r <==> exists i :: 0 <= i < |types| && EntryMatches(types[i], mimeType, lowerName)
  {
    if types == [] then false
    else
      assert forall i :: 1 <= i < |types| ==> types[i] == types[1..][i - 1];
      EntryMatches(types[0], mimeType, lowerName) || SomeEntryMatches(types[1..], mimeType, lowerName)
  }

  /** The type check: '*' admits everything; otherwise some entry must
      match the file's MIME type or its lower-cased name. */
  predicate TypeAccepted(accept: string, file: File) {
    accept == "*" || SomeEntryMatches(AcceptedTypes(accept), file.mimeType, ToLower(file.name))
  }

  /** `validateFile(file)` as the error it records: the size is checked
      first, and a file exactly `maxSize` bytes long passes it. */
  function Validate(file: File, accept: string, maxSize: nat): (r: Option<UploadError>)
    ensures r == Some(TooLarge(maxSize)) <==> file.size > maxSize
    ensures r == Some(UnsupportedType(accept)) <==> file.size <= maxSize && !TypeAccepted(accept, file)
    ensures r.None? <==> file.size <= maxSize && TypeAccepted(accept, file)
  {
    if file.size > maxSize then Some(TooLarge(maxSize))
    else if !TypeAccepted(accept, file) then Some(UnsupportedType(accept))
    else None
  }

  /** A comma splits the accept list: the entry before it and the entries
      after it. */
  lemma AcceptListSplitsAtComma(a: string, b: string)
    requires ',' !in a
    ensures AcceptedTypes(a + [','] + b) == [Trim(a)] + AcceptedTypes(b)
  {
    SplitAtFirst(a, ',', b);
  }

  /** An accept string without a comma is the single trimmed entry. */
  lemma SingleEntryAccept(accept: string, file: File)
    requires ',' !in accept && accept != "*"
    ensures TypeAccepted(accept, file) <==> EntryMatches(Trim(accept), file.mimeType, ToLower(file.name))
  {
    SplitWithoutSeparator(accept, ',');
  }

  /** The extension entry is compared as written: one holding an upper-case
      letter matches no file name, since only the name is lower-cased. */
  lemma UpperCaseExtensionNeverMatches(entry: string, mimeType: string, name: string, k: nat)
    requires '/' !in entry && k < |entry| && 'A' <= entry[k] <= 'Z'
    ensures !EntryMatches(entry, mimeType, ToLower(name))
  {
  }

  /** A wildcard entry admits exactly the MIME types that share its
      prefix; for the default accept string that is every `video/...` type. */
  lemma WildcardPrefix(mimeType: string, name: string)
    ensures EntryMatches(DefaultAccept, mimeType, name) <==> StartsWith(mimeType, "video/")
  {
    assert EndsWith(DefaultAccept, "/*");
    assert DefaultAccept[..|DefaultAccept| - 1] == "video/";
  }

  /** The picker's state: the recorded error and whether a drag hovers. */
  class FileUploadState {
    const accept: string
    const maxSize: nat
    var error: Option<UploadError>
    var isDragActive: bool

    /** The component with its props; `None` takes the defaults. */
    constructor (accept: Option<string>, maxSize: Option<nat>)
      ensures this.accept == accept.GetOr(DefaultAccept) && this.maxSize == maxSize.GetOr(DefaultMaxSize)
      ensures error.None? && !isDragActive
    {
      this.accept := accept.GetOr(DefaultAccept);
      this.maxSize := maxSize.GetOr(DefaultMaxSize);
      error := None;
      isDragActive := false;
    }

    /** `validateFile(file)`: records the error, or clears it on success. */
    method ValidateFile(file: File) returns (ok: bool)
      modifies this`error
      ensures error == Validate(file, accept, maxSize)
      ensures ok <==> error.None?
    {
      if file.size > maxSize {
        error := Some(TooLarge(maxSize));
        return false;
      }
      if accept != "*" {
        var types := AcceptedTypes(accept);
        var lowerName := ToLower(file.name);
        var isAccepted := SomeEntryMatches(types, file.mimeType, lowerName);
        if !isAccepted {
          error := Some(UnsupportedType(accept));
          return false;
        }
      }
      error := None;
      ok := true;
    }

    /** `handleFile(file)`: the file handed to `onFileSelect`, if any. */
    method HandleFile(file: File) returns (selected: Option<File>)
      modifies this`error
      ensures error == Validate(file, accept, maxSize)
      ensures selected == if error.None? then Some(file) else None
    {
      var ok := ValidateFile(file);
      selected := if ok then Some(file) else None;
    }

    /** `onDrop`: the drag ends and the first dropped file, if any, is
        handled. */
    method Drop(files: seq<File>) returns (selected: Option<File>)
      modifies this
      ensures !isDragActive
      ensures files == [] ==> selected.None? && error == old(error)
      ensures files != [] ==> (error == Validate(files[0], accept, maxSize) &&
                               selected == (if error.None? then Some(files[0]) else None))
    {
      isDragActive := false;
      selected := None;
      if |files| > 0 {
        selected := HandleFile(files[0]);
      }
    }

    /** `onFileInputChange`: the first chosen file, if any, is handled. */
    method InputChange(files: seq<File>) returns (selected: Option<File>)
      modifies this`error
      ensures files == [] ==> selected.None? && error == old(error)
      ensures files != [] ==> (error == Validate(files[0], accept, maxSize) &&
                               selected == (if error.None? then Some(files[0]) else None))
    {
      selected := None;
      if |files| > 0 {
        selected := HandleFile(files[0]);
      }
    }

    method DragEnter()
      modifies this`isDragActive
      ensures isDragActive
    {
      isDragActive := true;
    }

    method DragLeave()
      modifies this`isDragActive
      ensures !isDragActive
    {
      isDragActive := false;
    }

    /** `handleClickUpload`: clears the previous error. */
    method ClickUpload()
      modifies this`error
      ensures error.None?
    {
      error := None;
    }
  }
}
