/** Where the web service keeps a request's artifacts: the output
 *  directories derived from the simulator's base directory, and the file
 *  names built from a request's UUID (RequestService and Controller). */
module ArtifactPaths {
  import opened Wrappers
  import opened JavaText

  /** `File.separator` on the platforms the model covers. */
  const SEPARATOR: string := "/"

  predicate IsHexDigit(c: char) {
    '0' <= c <= '9' || 'a' <= c <= 'f' || 'A' <= c <= 'F'
  }

  predicate IsDashPosition(i: int) {
    i == 8 || i == 13 || i == 18 || i == 23
  }

  /** `uuid.matches(UUID_REGEX_PATTERN)`: the whole text is 8-4-4-4-12 hex
   *  digits of either case separated by dashes. */
  predicate IsUuid(s: string) {
    |s| == 36 && forall i :: 0 <= i < 36 ==> if IsDashPosition(i) then s[i] == '-' else IsHexDigit(s[i])
  }

  /** A well-formed UUID never contains a path separator, so a file named
   *  after it cannot leave its directory. */
  lemma UuidHasNoSeparator(s: string)
    requires IsUuid(s)
    ensures !Contains(s, SEPARATOR)
  {
    forall j | 0 <= j < |s|
      ensures !OccursAt(s, SEPARATOR, j)
    {
      assert s[j..j + 1][0] == s[j];
    }
  }

  // ------------------------------------------------------ output directories

  /** The prefix the constructors put before "zip" and "csv", as written:
   *  a base directory is given a trailing separator, but one that already
   *  ends with the separator is discarded altogether. */
  function OutputBaseAsWritten(baseDir: Option<string>): string {
    if baseDir.Some? && !EndsWith(baseDir.value, SEPARATOR) then baseDir.value + SEPARATOR else ""
  }

  /** The prefix as intended: the configured base directory with exactly
   *  one trailing separator, or nothing when no base directory is set. */
  function OutputBase(baseDir: Option<string>): (r: string)
    ensures baseDir.None? || baseDir.value == "" ==> r == ""
    ensures baseDir.Some? && baseDir.value != "" ==>
              StartsWith(r, baseDir.value) && EndsWith(r, SEPARATOR) && |r| <= |baseDir.value| + 1
  {
    if baseDir.None? || baseDir.value == "" then ""
    else if EndsWith(baseDir.value, SEPARATOR) then baseDir.value
    else baseDir.value + SEPARATOR
  }

  /** The two agree on every base directory that does not already end with
   *  the separator. */
  lemma OutputBaseAgrees(baseDir: Option<string>)
    requires baseDir.None? || (baseDir.value != "" && !EndsWith(baseDir.value, SEPARATOR))
    ensures OutputBaseAsWritten(baseDir) == OutputBase(baseDir)
  {
  }

  /** "output/" loses its base directory (the ZIP directory becomes "zip"
   *  in the working directory), and "" becomes the file-system root. */
  lemma OutputBaseAsWrittenDropsBase()
    ensures OutputBaseAsWritten(Some("output/")) == ""
    ensures OutputBase(Some("output/")) == "output/"
    ensures OutputBaseAsWritten(Some("")) == "/"
    ensures OutputBase(Some("")) == ""
  {
    assert EndsWith("output/", SEPARATOR);
  }

  /** The output directories of one service instance. */
  datatype Dirs = Dirs(zipDir: string, csvDir: string)

  /** The directories the constructor derives from `exporter.baseDirectory`. */
  function OutputDirs(baseDir: Option<string>): (r: Dirs)
    ensures r.zipDir == OutputBase(baseDir) + "zip" && r.csvDir == OutputBase(baseDir) + "csv"
  {
    Dirs(OutputBase(baseDir) + "zip", OutputBase(baseDir) + "csv")
  }

  // ------------------------------------------------------------- file names

  function FileName(uuid: string, fileType: string, extension: string): string {
    uuid + "-" + fileType + "." + extension
  }

  /** `getFileObject(uuid, type, extension)`: null for a missing or
   *  malformed UUID; a ZIP file always goes to the ZIP directory whatever
   *  its type; otherwise "fhir" files go to the ZIP directory, "csv" files
   *  to the CSV directory, and any other type has no file. */
  function FileObject(dirs: Dirs, uuid: Option<string>, fileType: string, extension: string): (r: Option<string>)
    ensures r.Some? <==> uuid.Some? && IsUuid(uuid.value) && (extension == "zip" || fileType == "fhir" || fileType == "csv")
    ensures r.Some? && (extension == "zip" || fileType == "fhir") ==>
              r.value == dirs.zipDir + SEPARATOR + FileName(uuid.value, fileType, extension)
    ensures r.Some? && extension != "zip" && fileType == "csv" ==>
              r.value == dirs.csvDir + SEPARATOR + FileName(uuid.value, fileType, extension)
  {
    if uuid.None? || !IsUuid(uuid.value) then None
    else if extension == "zip" then Some(dirs.zipDir + SEPARATOR + FileName(uuid.value, fileType, extension))
    else if fileType == "fhir" then Some(dirs.zipDir + SEPARATOR + FileName(uuid.value, fileType, extension))
    else if fileType == "csv" then Some(dirs.csvDir + SEPARATOR + FileName(uuid.value, fileType, extension))
    else None
  }

  /** `getZipFileObject(uuid, type)`. */
  function ZipFileObject(dirs: Dirs, uuid: Option<string>, fileType: string): (r: Option<string>)
    ensures r.Some? <==> uuid.Some? && IsUuid(uuid.value)
    ensures r.Some? ==> r.value == dirs.zipDir + SEPARATOR + FileName(uuid.value, fileType, "zip")
  {
    FileObject(dirs, uuid, fileType, "zip")
  }

  /** `getTempZipFileObject(uuid, type)`. */
  function TempZipFileObject(dirs: Dirs, uuid: Option<string>, fileType: string): Option<string> {
    FileObject(dirs, uuid, fileType, "tmp")
  }

  /** `getJsonFileObject(uuid)`. */
  function JsonFileObject(dirs: Dirs, uuid: Option<string>): (r: Option<string>)
    ensures r.Some? <==> uuid.Some? && IsUuid(uuid.value)
    ensures r.Some? ==> r.value == dirs.zipDir + SEPARATOR + FileName(uuid.value, "fhir", "json")
  {
    FileObject(dirs, uuid, "fhir", "json")
  }

  /** `getCsvFileObject(uuid, filename)`: the file inside the request's own
   *  sub-directory of the CSV directory, or null for a malformed UUID. */
  function CsvFileObject(dirs: Dirs, uuid: Option<string>, filename: string): (r: Option<string>)
    ensures r.Some? <==> uuid.Some? && IsUuid(uuid.value)
  {
    if uuid.Some? && IsUuid(uuid.value)
    then Some(dirs.csvDir + SEPARATOR + uuid.value + SEPARATOR + filename)
    else None
  }

  /** Two requests never share a file: the same type and extension with
   *  different UUIDs give different paths. */
  lemma FileObjectInjective(dirs: Dirs, u1: string, u2: string, fileType: string, extension: string)
    requires FileObject(dirs, Some(u1), fileType, extension).Some?
    requires FileObject(dirs, Some(u1), fileType, extension) == FileObject(dirs, Some(u2), fileType, extension)
    ensures u1 == u2
  {
    var p := FileObject(dirs, Some(u1), fileType, extension).value;
    var d := if extension == "zip" || fileType == "fhir" then dirs.zipDir else dirs.csvDir;
    assert p[|d| + 1..|d| + 37] == u1;
    assert p[|d| + 1..|d| + 37] == u2;
  }

  /** A request's JSON results file and its ZIP file are distinct, and both
   *  sit directly in the ZIP directory. */
  lemma JsonFileIsNotZipFile(dirs: Dirs, uuid: string)
    requires IsUuid(uuid)
    ensures JsonFileObject(dirs, Some(uuid)).Some? && ZipFileObject(dirs, Some(uuid), "fhir").Some?
    ensures JsonFileObject(dirs, Some(uuid)).value != ZipFileObject(dirs, Some(uuid), "fhir").value
    ensures EndsWith(ZipFileObject(dirs, Some(uuid), "fhir").value, ".zip")
    ensures !EndsWith(JsonFileObject(dirs, Some(uuid)).value, ".zip")
  {
    var j := JsonFileObject(dirs, Some(uuid)).value;
    var z := ZipFileObject(dirs, Some(uuid), "fhir").value;
    assert j[|j| - 1] == 'n' && z[|z| - 1] == 'p';
    assert z[|z| - 4..] == ".zip";
    assert j[|j| - 4..] != ".zip" by { assert j[|j| - 4..][3] == 'n'; }
  }

  /** CSV files of different requests, or different names of one request,
   *  never coincide. */
  lemma CsvFileObjectInjective(dirs: Dirs, u1: string, f1: string, u2: string, f2: string)
    requires CsvFileObject(dirs, Some(u1), f1).Some?
    requires CsvFileObject(dirs, Some(u1), f1) == CsvFileObject(dirs, Some(u2), f2)
    ensures u1 == u2 && f1 == f2
  {
    var p := CsvFileObject(dirs, Some(u1), f1).value;
    var n := |dirs.csvDir| + 1;
    assert p[n..n + 36] == u1;
    assert p[n..n + 36] == u2;
    assert p[n + 37..] == f1;
    assert p[n + 37..] == f2;
  }

  /** The Controller's ZIP file: `zipDir/uuid.zip`, with no check of the UUID. */
  function ControllerZipFile(zipDir: string, uuid: string): (r: string)
    ensures EndsWith(r, ".zip")
  {
    zipDir + SEPARATOR + uuid + ".zip"
  }
}
