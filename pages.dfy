/**
 * The page store: `Page`, `Page.save` and `loadPage`.  The `pages/` directory
 * is a map from file name to file contents; a page lives in the file
 * `pages/<lower-cased title>.txt`.
 */
module Pages {
  import opened Common
  import opened Ascii

  datatype Page = Page(title: string, body: seq<byte>)

  /** File name to file contents. */
  type Directory = map<string, seq<byte>>

  /** The file name `"pages/" + strings.ToLower(title) + ".txt"`. */
  function Key(title: string): string
  {
    "pages/" + ToLower(title) + ".txt"
  }

  /** Two titles name the same file exactly when their lower-cased forms agree. */
  lemma KeyInjective(t1: string, t2: string)
    ensures Key(t1) == Key(t2) <==> ToLower(t1) == ToLower(t2)
  {
    if Key(t1) == Key(t2) {
      var k := Key(t1);
      assert ToLower(t1) == k[6..|k| - 4];
      assert ToLower(t2) == Key(t2)[6..|Key(t2)| - 4];
    }
  }

  /** `loadPage(title)` against the directory `files`: absent file is an error (None). */
  function Lookup(files: Directory, title: string): (r: Option<Page>)
    ensures r.None? <==> Key(title) !in files
    ensures r.Some? ==> r.value.title == title && r.value.body == files[Key(title)]
  {
    if Key(title) in files then Some(Page(title, files[Key(title)])) else None
  }

  /** The directory after `ioutil.WriteFile` of the page's file has succeeded. */
  function Store(files: Directory, page: Page): Directory
  {
    files[Key(page.title) := page.body]
  }

  /** Round trip: after saving under `title`, loading any title with the same lower-case form gives the saved body, under the title asked for. */
  lemma LoadAfterSave(files: Directory, title: string, body: seq<byte>, other: string)
    requires ToLower(other) == ToLower(title)
    ensures Lookup(Store(files, Page(title, body)), other) == Some(Page(other, body))
  {
    KeyInjective(title, other);
  }

  /** Saving a page leaves every page whose lower-cased title differs exactly as it was. */
  lemma SaveIsolated(files: Directory, page: Page, other: string)
    requires ToLower(other) != ToLower(page.title)
    ensures Lookup(Store(files, page), other) == Lookup(files, other)
  {
    KeyInjective(page.title, other);
  }

  /** A save replaces the whole file and adds no file but its own. */
  lemma SaveOverwrites(files: Directory, page: Page)
    ensures Store(files, page).Keys == files.Keys + {Key(page.title)}
    ensures Store(files, page)[Key(page.title)] == page.body
    ensures forall k :: k in files && k != Key(page.title) ==> Store(files, page)[k] == files[k]
  {
  }

  /** Saving the same page twice leaves the same directory as saving it once. */
  lemma SaveIdempotent(files: Directory, page: Page)
    ensures Store(Store(files, page), page) == Store(files, page)
  {
  }

  /** Titles differing only in case see the same stored body. */
  lemma CaseVariantsCollide(files: Directory, t1: string, t2: string)
    requires ToLower(t1) == ToLower(t2)
    ensures Lookup(files, t1).Some? <==> Lookup(files, t2).Some?
    ensures Lookup(files, t1).Some? ==> Lookup(files, t1).value.body == Lookup(files, t2).value.body
  {
    KeyInjective(t1, t2);
  }

  /** The `pages/` directory, shared by every request. */
  class PagesDir {
    var files: Directory

    constructor (files: Directory)
      ensures this.files == files
    {
      this.files := files;
    }

    /**
     * `page.save()`: writes the page's file.  Whether the file system accepts
     * the write is the parameter `writeOk`; a refused write leaves the
     * directory as it was and is reported as `ok == false`.
     */
    method Save(page: Page, writeOk: bool) returns (ok: bool)
      modifies this
      ensures ok == writeOk
      ensures files == if ok then Store(old(files), page) else old(files)
    {
      ok := writeOk;
      if ok {
        files := Store(files, page);
      }
    }
  }
}
