/** CleanupService: the scheduled sweep that deletes expired ZIP files from
 *  the ZIP output directory. */
module Cleanup {
  import opened Wrappers
  import opened JavaText
  import opened ArtifactPaths
  import opened FileStore

  /** Default `zip.maxAgeSeconds` of CleanupService. */
  const DEFAULT_MAX_ZIP_AGE_SECONDS: int := 86400

  /** `checkForExpiredFile`'s test as written: the age limit in
   *  milliseconds is computed in 32-bit `int` arithmetic. */
  predicate IsExpiredAsWritten(now: int, created: int, maxAgeSeconds: int): (expired: bool)
    ensures INT_MIN <= maxAgeSeconds * 1000 <= INT_MAX ==> (expired <==> IsExpired(now, created, maxAgeSeconds))
    ensures now - created >= INT_MAX ==> expired
    ensures now - created < INT_MIN ==> !expired
  {
    now - created >= Wrap32(maxAgeSeconds * 1000)
  }

  /** The intended test: a file is expired once its age in milliseconds
   *  reaches the limit (the boundary counts as expired). */
  predicate IsExpired(now: int, created: int, maxAgeSeconds: int) {
    now - created >= maxAgeSeconds * 1000
  }

  /** For every limit whose milliseconds fit in an `int` the two agree. */
  lemma ExpiryAgreesWithoutOverflow(now: int, created: int, maxAgeSeconds: int)
    requires INT_MIN <= maxAgeSeconds * 1000 <= INT_MAX
    ensures IsExpiredAsWritten(now, created, maxAgeSeconds) == IsExpired(now, created, maxAgeSeconds)
  {
  }

  /** A limit of 2147484 seconds (under 25 days) wraps to a negative number
   *  of milliseconds, so a file created this very instant is expired. */
  lemma ExpiryOverflows(now: int)
    ensures Wrap32(2147484 * 1000) < 0
    ensures IsExpiredAsWritten(now, now, 2147484)
    ensures !IsExpired(now, now, 2147484)
  {
    assert Wrap32(2147484 * 1000) == -2147483296;
  }

  /** The default limit is one day, and a file exactly one day old is due. */
  lemma DefaultLimitIsOneDay(now: int)
    ensures IsExpired(now, now - 86400000, DEFAULT_MAX_ZIP_AGE_SECONDS)
    ensures !IsExpired(now, now - 86399999, DEFAULT_MAX_ZIP_AGE_SECONDS)
    ensures IsExpiredAsWritten(now, now - 86400000, DEFAULT_MAX_ZIP_AGE_SECONDS)
  {
  }

  /** `Files.newDirectoryStream(zipDir, "*.zip")`: entries directly inside
   *  the ZIP directory whose names end with ".zip". */
  predicate IsListed(zipDir: string, path: string) {
    StartsWith(path, zipDir + SEPARATOR)
    && EndsWith(path[|zipDir| + 1..], ".zip")
    && !Contains(path[|zipDir| + 1..], SEPARATOR)
  }

  /** The files one sweep removes: listed, expired, and without an I/O
   *  error (`failing`) while reading their attributes or deleting them. */
  predicate Doomed(files: map<string, FileEntry>, zipDir: string, maxAgeSeconds: int, now: int,
                   failing: set<string>, path: string)
  {
    path in files && IsListed(zipDir, path) && path !in failing
    && IsExpired(now, files[path].created, maxAgeSeconds)
  }

  /** The file system after a sweep whose listing succeeded. */
  function Swept(files: map<string, FileEntry>, zipDir: string, maxAgeSeconds: int, now: int,
                 failing: set<string>): (r: map<string, FileEntry>)
    ensures forall p :: p in r <==> p in files && !Doomed(files, zipDir, maxAgeSeconds, now, failing, p)
    ensures forall p :: p in r ==> r[p] == files[p]
  {
    map p | p in files && !Doomed(files, zipDir, maxAgeSeconds, now, failing, p) :: files[p]
  }

  /** `checkForExpiredFile`: deletes the file when it is expired; an I/O
   *  error (`fails`) is logged and leaves it in place. */
  method CheckForExpiredFile(fs: FileSystem, path: string, maxAgeSeconds: int, now: int, fails: bool)
    requires path in fs.files
    modifies fs
    ensures fs.files == if !fails && IsExpired(now, old(fs.files)[path].created, maxAgeSeconds)
                        then old(fs.files) - {path} else old(fs.files)
  {
    if !fails && IsExpired(now, fs.files[path].created, maxAgeSeconds) {
      fs.Delete(path);
    }
  }

  /** The file system once the sweep has visited `visited`. */
  ghost function SweptSoFar(files: map<string, FileEntry>, zipDir: string, maxAgeSeconds: int, now: int,
                            failing: set<string>, visited: set<string>): map<string, FileEntry>
  {
    map p | p in files && !(p in visited && Doomed(files, zipDir, maxAgeSeconds, now, failing, p)) :: files[p]
  }

  /** Visiting one more file removes it exactly when it is doomed. */
  lemma VisitOne(files: map<string, FileEntry>, zipDir: string, maxAgeSeconds: int, now: int,
                 failing: set<string>, visited: set<string>, path: string)
    requires path in files && IsListed(zipDir, path) && path !in visited
    ensures path in SweptSoFar(files, zipDir, maxAgeSeconds, now, failing, visited)
    ensures SweptSoFar(files, zipDir, maxAgeSeconds, now, failing, visited + {path})
         == if Doomed(files, zipDir, maxAgeSeconds, now, failing, path)
            then SweptSoFar(files, zipDir, maxAgeSeconds, now, failing, visited) - {path}
            else SweptSoFar(files, zipDir, maxAgeSeconds, now, failing, visited)
  {
  }

  /** Once every listed file has been visited, the sweep is complete. */
  lemma VisitedAll(files: map<string, FileEntry>, zipDir: string, maxAgeSeconds: int, now: int,
                   failing: set<string>, visited: set<string>)
    requires forall p :: p in files && IsListed(zipDir, p) ==> p in visited
    ensures SweptSoFar(files, zipDir, maxAgeSeconds, now, failing, visited) == Swept(files, zipDir, maxAgeSeconds, now, failing)
  {
  }

  /** `deleteExpiredZipFiles`: visits every listed file in any order; a
   *  failure on one file does not stop the others, and a failure to list
   *  the directory deletes nothing. */
  method DeleteExpiredZipFiles(fs: FileSystem, zipDir: string, maxAgeSeconds: int, now: int,
                               failing: set<string>, listingFails: bool)
    modifies fs
    ensures listingFails ==> fs.files == old(fs.files)
    ensures !listingFails ==> fs.files == Swept(old(fs.files), zipDir, maxAgeSeconds, now, failing)
  {
    if listingFails {
      return;
    }
    ghost var original := fs.files;
    var listed := set p | p in fs.files && IsListed(zipDir, p);
    var remaining := listed;
    assert SweptSoFar(original, zipDir, maxAgeSeconds, now, failing, {}) == original;
    while remaining != {}
      invariant remaining <= listed
      invariant fs.files == SweptSoFar(original, zipDir, maxAgeSeconds, now, failing, listed - remaining)
      decreases |remaining|
    {
      var p :| p in remaining;
      VisitOne(original, zipDir, maxAgeSeconds, now, failing, listed - remaining, p);
      CheckForExpiredFile(fs, p, maxAgeSeconds, now, p in failing);
      assert listed - (remaining - {p}) == (listed - remaining) + {p};
      remaining := remaining - {p};
    }
    VisitedAll(original, zipDir, maxAgeSeconds, now, failing, listed);
  }

  /** A request's ZIP file is in the sweep's reach, and its JSON results
   *  file never is. */
  lemma ZipFileIsSwept(dirs: Dirs, uuid: string)
    requires IsUuid(uuid)
    ensures IsListed(dirs.zipDir, ZipFileObject(dirs, Some(uuid), "fhir").value)
    ensures !IsListed(dirs.zipDir, JsonFileObject(dirs, Some(uuid)).value)
  {
    JsonFileIsNotZipFile(dirs, uuid);
    var z := ZipFileObject(dirs, Some(uuid), "fhir").value;
    var name := FileName(uuid, "fhir", "zip");
    assert z[|dirs.zipDir| + 1..] == name;
    UuidHasNoSeparator(uuid);
    NameAvoidsSeparator(uuid, "fhir", "zip");
    var j := JsonFileObject(dirs, Some(uuid)).value;
    assert j[|dirs.zipDir| + 1..] == FileName(uuid, "fhir", "json");
  }

  lemma NameAvoidsSeparator(uuid: string, fileType: string, extension: string)
    requires !Contains(uuid, SEPARATOR) && !Contains(fileType, SEPARATOR) && !Contains(extension, SEPARATOR)
    requires |fileType| > 0 && fileType[0] != '/'
    ensures !Contains(FileName(uuid, fileType, extension), SEPARATOR)
  {
    var n := FileName(uuid, fileType, extension);
    forall j | 0 <= j < |n|
      ensures !OccursAt(n, SEPARATOR, j)
    {
      if j < |uuid| {
        assert n[j..j + 1] == uuid[j..j + 1];
        assert !OccursAt(uuid, SEPARATOR, j);
      } else if j == |uuid| {
        assert n[j] == '-';
      } else if j < |uuid| + 1 + |fileType| {
        assert n[j..j + 1] == fileType[j - |uuid| - 1..j - |uuid|];
        assert !OccursAt(fileType, SEPARATOR, j - |uuid| - 1);
      } else if j == |uuid| + 1 + |fileType| {
        assert n[j] == '.';
      } else {
        var k := j - |uuid| - 2 - |fileType|;
        assert n[j..j + 1] == extension[k..k + 1];
        assert !OccursAt(extension, SEPARATOR, k);
      }
    }
  }
}
