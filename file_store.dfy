/** The part of the file system the web service touches: files by path,
 *  each a text file or a ZIP archive, with its creation time. */
module FileStore {
  import opened GeneratorConfig

  /** What a ZIP entry holds: the request configuration (serialised by
   *  `JSONObject.toString`) or the text of the results file. */
  datatype EntryData = ConfigJson(configuration: JsonObject) | RecordsJson(text: string)

  datatype ZipEntry = ZipEntry(name: string, data: EntryData)

  datatype Content = Text(text: string) | Archive(entries: seq<ZipEntry>)

  /** A file and its creation time, in milliseconds. */
  datatype FileEntry = FileEntry(content: Content, created: int)

  /** The text a writer opened in append mode continues from: the file's
   *  text, or nothing when the file is absent or not text. */
  function TextOf(files: map<string, FileEntry>, path: string): string {
    if path in files && files[path].content.Text? then files[path].content.text else ""
  }

  /** Rewriting a file keeps its creation time; a new file is created now. */
  function CreatedAt(files: map<string, FileEntry>, path: string, now: int): int {
    if path in files then files[path].created else now
  }

  /** Writing a file twice leaves only the second write. */
  lemma Rewrite(files: map<string, FileEntry>, path: string, first: FileEntry, second: FileEntry)
    ensures files[path := first][path := second] == files[path := second]
  {
  }

  /** A file that is written and then deleted leaves no trace, whatever is
   *  written to another file meanwhile. */
  lemma WriteThenDelete(files: map<string, FileEntry>, path: string, entry: FileEntry, other: string, otherEntry: FileEntry)
    requires path != other
    ensures files[path := entry][other := otherEntry] - {path} == files[other := otherEntry] - {path}
  {
  }

  /** The entries of the ZIP file a finished request leaves behind. */
  function ResultsArchive(uuid: string, configuration: JsonObject, results: string): seq<ZipEntry> {
    [ZipEntry(uuid + "-config.json", ConfigJson(configuration)), ZipEntry(uuid + ".json", RecordsJson(results))]
  }

  class FileSystem {
    var files: map<string, FileEntry>

    constructor(files: map<string, FileEntry>)
      ensures this.files == files
    {
      this.files := files;
    }

    /** `new FileWriter(path, true)` followed by `write(text)`. */
    method Append(path: string, text: string, now: int)
      modifies this
      ensures files == old(files)[path := FileEntry(Text(TextOf(old(files), path) + text), CreatedAt(old(files), path, now))]
    {
      files := files[path := FileEntry(Text(TextOf(files, path) + text), CreatedAt(files, path, now))];
    }

    /** `new FileOutputStream(path)` followed by writing `content`. */
    method Put(path: string, content: Content, now: int)
      modifies this
      ensures files == old(files)[path := FileEntry(content, CreatedAt(old(files), path, now))]
    {
      files := files[path := FileEntry(content, CreatedAt(files, path, now))];
    }

    /** `File.delete` / `Files.delete`; deleting an absent file changes nothing. */
    method Delete(path: string)
      modifies this
      ensures files == old(files) - {path}
    {
      files := files - {path};
    }
  }
}
