/**
 * utils/upload.go: storing uploaded images under ./assets. The disk is the
 * `AssetStore` object (the locations written so far); the multipart form and
 * the clock are inputs. What http.DetectContentType reports for a file's
 * first 512 bytes, and which operating-system call fails, are fields of the
 * file header.
 */
module Upload {
  import opened Wrappers
  import Text

  /** MAX_UPLOAD_SIZE: 2 MiB. */
  const MaxUploadSize := 1024 * 1024 * 2

  datatype FileHeader = FileHeader(
    filename: string,
    size: int,
    sniffedType: string,           // http.DetectContentType of the first 512 bytes
    openError: Option<string>,     // FileHeader.Open failed
    readError: Option<string>,     // reading the first 512 bytes failed (an empty file reads as EOF)
    writeError: Option<string>)    // Seek, MkdirAll, Create or Copy failed

  /** The multipart form: whether parsing it failed, and the files under each key. */
  datatype Form = Form(parseError: Option<string>, files: map<string, seq<FileHeader>>)

  /** r.FormFile(key) succeeds: the form parses and the field's first file opens. */
  predicate FormFileOpens(form: Form, key: string)
  {
    form.parseError.None? && key in form.files && form.files[key] != [] && form.files[key][0].openError.None?
  }

  const AllowedTypes: set<string> := {"image/jpeg", "image/png", "image/jpg", "image/webp"}

  predicate AllowedType(t: string)
  {
    t in AllowedTypes
  }

  const FormatPrefix := "The provided file format "
  const FormatSuffix := " is not allowed. Please upload a JPEG or PNG or WEBP image"
  const TooBigPrefix := "The uploaded image is too big: "
  const TooBigSuffix := ". Please use an image less than 2MB in size"

  /** filepath.Ext: the suffix from the last '.' of the final path element, or "". */
  function Ext(path: string): (r: string)
    ensures r == "" || (r[0] == '.' && '.' !in r[1..] && '/' !in r)
    ensures |r| <= |path| && r == path[|path| - |r|..]
  {
    if |path| == 0 then ""
    else
      var c := path[|path| - 1];
      if c == '/' then ""
      else if c == '.' then "."
      else
        var e := Ext(path[..|path| - 1]);
        if e == "" then "" else e + [c]
  }

  /** strings.Split(strings.ReplaceAll(name, " ", "-"), ".")[0]. */
  function BaseName(filename: string): (r: string)
    ensures '.' !in r && ' ' !in r
    ensures |r| <= |filename|
  {
    Text.Before(Text.ReplaceChar(filename, ' ', '-'), '.')
  }

  /** The location a file is stored at: "/assets/<base>-<unix millis><ext>". */
  function StoredPath(filename: string, millis: int): (r: string)
    ensures |r| > |"/assets/"| && r[..|"/assets/"|] == "/assets/"
    ensures |Ext(filename)| <= |r| && r[|r| - |Ext(filename)|..] == Ext(filename)
  {
    Text.NatToDecDigits(if millis < 0 then -millis else millis);
    "/assets/" + BaseName(filename) + "-" + Text.IntToDec(millis) + Ext(filename)
  }

  /** The file opens and its first bytes read. */
  predicate Opens(fh: FileHeader)
  {
    fh.openError.None? && fh.readError.None?
  }

  /** saveFileinAssests: the location written, or the error that stopped it. */
  function SaveFile(fh: FileHeader, millis: int): (r: Result<string, string>)
    ensures r.Ok? <==> Opens(fh) && AllowedType(fh.sniffedType) && fh.writeError.None?
    ensures r.Ok? ==> r.value == StoredPath(fh.filename, millis)
    ensures Opens(fh) && !AllowedType(fh.sniffedType) ==>
      r == Err(FormatPrefix + fh.sniffedType + FormatSuffix)
    ensures fh.openError.Some? ==> r == Err(fh.openError.value)
  {
    if fh.openError.Some? then Err(fh.openError.value)
    else if fh.readError.Some? then Err(fh.readError.value)
    else if !AllowedType(fh.sniffedType) then Err(FormatPrefix + fh.sniffedType + FormatSuffix)
    else if fh.writeError.Some? then Err(fh.writeError.value)
    else Ok(StoredPath(fh.filename, millis))
  }

  /** Two files with different extensions never share a location, whatever the clock says. */
  lemma DistinctExtensionsDistinctPaths(a: string, b: string, m1: int, m2: int)
    requires Ext(a) != Ext(b)
    ensures StoredPath(a, m1) != StoredPath(b, m2)
  {
    var pa, pb := StoredPath(a, m1), StoredPath(b, m2);
    var ea, eb := Ext(a), Ext(b);
    NoDotBeforeExt(a, m1);
    NoDotBeforeExt(b, m2);
    if |pa| == |pb| {
      if |ea| == |eb| {
        assert pa[|pa| - |ea|..] == ea && pb[|pb| - |eb|..] == eb;
      } else if |ea| < |eb| {
        assert pb[|pb| - |eb|] == '.' && pa[|pa| - |eb|] != '.';
      } else {
        assert pa[|pa| - |ea|] == '.' && pb[|pb| - |ea|] != '.';
      }
    }
  }

  /** The only '.' characters of a stored path are those of the extension. */
  lemma NoDotBeforeExt(name: string, millis: int)
    ensures forall i :: 0 <= i < |StoredPath(name, millis)| - |Ext(name)| ==> StoredPath(name, millis)[i] != '.'
  {
    var p := StoredPath(name, millis);
    var digits := Text.IntToDec(millis);
    Text.IntToDecChars(millis);
    var head := "/assets/" + BaseName(name) + "-" + digits;
    assert p == head + Ext(name);
    forall i | 0 <= i < |head| ensures head[i] != '.' {
      if i >= |head| - |digits| {
        assert head[i] == digits[i - (|head| - |digits|)];
      } else if i >= |"/assets/"| && i < |"/assets/"| + |BaseName(name)| {
        assert head[i] == BaseName(name)[i - |"/assets/"|];
      }
    }
  }

  /** The disk under ./assets: the locations of the files written so far, in order. */
  class AssetStore {
    var written: seq<string>

    constructor ()
      ensures written == []
    {
      written := [];
    }

    /** saveFileinAssests with its effect: a file is written exactly when saving succeeds. */
    method Save(fh: FileHeader, millis: int) returns (r: Result<string, string>)
      modifies this
      ensures r == SaveFile(fh, millis)
      ensures written == if r.Ok? then old(written) + [r.value] else old(written)
    {
      r := SaveFile(fh, millis);
      if r.Ok? {
        written := written + [r.value];
      }
    }

    /**
     * UploadFile: r.FormFile fails for a form that does not parse, a missing
     * field, or a first file that does not open, and every such failure
     * yields "empty" and no error.
     */
    method UploadFile(form: Form, key: string, millis: int) returns (location: string, err: Option<string>)
      modifies this
      ensures !FormFileOpens(form, key) ==>
        location == "empty" && err == None && written == old(written)
      ensures FormFileOpens(form, key) ==>
        var saved := SaveFile(form.files[key][0], millis);
        (saved.Ok? ==> location == saved.value && err == None && written == old(written) + [location])
        && (saved.Err? ==> location == "" && err == Some(saved.error) && written == old(written))
    {
      if !FormFileOpens(form, key) {
        return "empty", None;
      }
      var r := Save(form.files[key][0], millis);
      if r.Err? {
        return "", Some(r.error);
      }
      return r.value, None;
    }

    /**
     * UploadFiles: files are saved one after the other; the first one that is
     * too big, or that fails to save, ends the call with an error, and the
     * files saved before it stay on disk. `locations` is None for Go's nil
     * slice. `clock(i)` is the time at which the i-th file is saved.
     */
    method UploadFiles(form: Form, key: string, clock: nat -> int) returns (locations: Option<seq<string>>, err: Option<string>)
      modifies this
      ensures form.parseError.Some? ==>
        locations == None && err == form.parseError && written == old(written)
      ensures form.parseError.None? ==>
        var fs := if key in form.files then form.files[key] else [];
        UploadedAll(fs, clock, locations, err, old(written), written)
    {
      if form.parseError.Some? {
        return None, form.parseError;
      }
      var fs := if key in form.files then form.files[key] else [];
      locations, err := SaveAll(fs, clock);
    }

    /** The loop of UploadFiles over the files of the field. */
    method SaveAll(fs: seq<FileHeader>, clock: nat -> int) returns (locations: Option<seq<string>>, err: Option<string>)
      modifies this
      ensures UploadedAll(fs, clock, locations, err, old(written), written)
    {
      var done: seq<string> := [];
      locations := None;
      var i := 0;
      while i < |fs|
        invariant 0 <= i <= |fs|
        invariant NoneFails(fs, i)
        invariant done == SavedLocations(fs, clock, i)
        invariant locations == if i == 0 then None else Some(done)
        invariant written == old(written) + done
      {
        var fh := fs[i];
        if fh.size > MaxUploadSize {
          FirstFailureAt(fs, i);
          return Some([]), Some(TooBigPrefix + fh.filename + TooBigSuffix);
        }
        var r := Save(fh, clock(i));
        if r.Err? {
          FirstFailureAt(fs, i);
          return None, Some(r.error);
        }
        NoneFailsNext(fs, i);
        SavedLocationsNext(fs, clock, i);
        done := done + [r.value];
        locations := Some(done);
        i := i + 1;
      }
      FirstFailureNone(fs);
      err := None;
    }
  }

  /**
   * What saving `fs` one after the other leaves: with no failing file, every
   * location and no error (None for no files at all); otherwise the files
   * before the first failing one stay saved, and a too-big file gives an
   * empty list with its own message, a failed save no list and the save's error.
   */
  predicate UploadedAll(fs: seq<FileHeader>, clock: nat -> int, locations: Option<seq<string>>, err: Option<string>,
                        before: seq<string>, after: seq<string>)
  {
    match FirstFailure(fs, 0)
    case None =>
      err == None
      && locations == (if fs == [] then None else Some(SavedLocations(fs, clock, |fs|)))
      && after == before + SavedLocations(fs, clock, |fs|)
    case Some(k) =>
      after == before + SavedLocations(fs, clock, k)
      && (fs[k].size > MaxUploadSize ==>
            locations == Some([]) && err == Some(TooBigPrefix + fs[k].filename + TooBigSuffix))
      && (fs[k].size <= MaxUploadSize ==>
            locations == None && err == Some(SaveFile(fs[k], clock(k)).error))
  }

  /** The locations of the first `k` files when each is saved at its own clock reading. */
  function SavedLocations(fs: seq<FileHeader>, clock: nat -> int, k: nat): (r: seq<string>)
    requires k <= |fs|
    ensures |r| == k
  {
    seq(k, i requires 0 <= i < k => StoredPath(fs[i].filename, clock(i)))
  }

  lemma SavedLocationsNext(fs: seq<FileHeader>, clock: nat -> int, k: nat)
    requires k < |fs|
    ensures SavedLocations(fs, clock, k + 1) == SavedLocations(fs, clock, k) + [StoredPath(fs[k].filename, clock(k))]
  {
  }

  /** The file is too big, or one of the steps of saving it fails. */
  predicate Fails(fh: FileHeader)
  {
    fh.size > MaxUploadSize || !Opens(fh) || !AllowedType(fh.sniffedType) || fh.writeError.Some?
  }

  /** None of the first `k` files fails. */
  predicate NoneFails(fs: seq<FileHeader>, k: nat)
    requires k <= |fs|
  {
    forall j :: 0 <= j < k ==> !Fails(fs[j])
  }

  lemma NoneFailsNext(fs: seq<FileHeader>, k: nat)
    requires k < |fs| && NoneFails(fs, k) && !Fails(fs[k])
    ensures NoneFails(fs, k + 1)
  {
  }

  /** The first file, at or after `from`, that is too big or cannot be saved. */
  function FirstFailure(fs: seq<FileHeader>, from: nat): (r: Option<nat>)
    requires from <= |fs|
    decreases |fs| - from
    ensures r.Some? ==> from <= r.value < |fs| && Fails(fs[r.value])
    ensures forall j :: from <= j < |fs| && (r.None? || j < r.value) ==> !Fails(fs[j])
  {
    if from == |fs| then None
    else if Fails(fs[from]) then Some(from)
    else FirstFailure(fs, from + 1)
  }

  lemma FirstFailureAt(fs: seq<FileHeader>, k: nat)
    requires k < |fs| && Fails(fs[k]) && NoneFails(fs, k)
    ensures FirstFailure(fs, 0) == Some(k)
  {
  }

  lemma FirstFailureNone(fs: seq<FileHeader>)
    requires NoneFails(fs, |fs|)
    ensures FirstFailure(fs, 0) == None
  {
  }
}
