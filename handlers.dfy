/** The page handlers `viewHandler`, `editHandler` and `saveHandler`. */
module Handlers {
  import opened Common
  import opened Pages
  import opened Http
  import opened Ascii

  /** `viewHandler`: show the page, or send the visitor to create it. */
  function ViewHandler(dir: PagesDir, title: string): (r: Response)
    reads dir
    ensures Key(title) !in dir.files ==> r == Redirect("/edit/" + title)
    ensures Key(title) in dir.files ==> r == Render("view", Page(title, dir.files[Key(title)]))
  {
    match Lookup(dir.files, title)
    case None => Redirect("/edit/" + title)
    case Some(p) => Render("view", p)
  }

  /** `editHandler`: the edit form, pre-filled when the page exists, empty otherwise; never an error. */
  function EditHandler(dir: PagesDir, title: string): (r: Response)
    reads dir
    ensures r.Render? && r.template == "edit" && r.page.title == title
    ensures r.page.body == if Key(title) in dir.files then dir.files[Key(title)] else []
  {
    var p := Lookup(dir.files, title);
    Render("edit", if p.None? then Page(title, []) else p.value)
  }

  /**
   * `saveHandler`: store the form's `body` under `title`, then show the page;
   * a failed write is a 500 with no redirect.
   */
  method SaveHandler(dir: PagesDir, title: string, body: seq<byte>, writeOk: bool) returns (r: Response)
    modifies dir
    ensures writeOk ==> dir.files == Store(old(dir.files), Page(title, body)) && r == Redirect("/view/" + title)
    ensures !writeOk ==> dir.files == old(dir.files) && r == ServerError
  {
    var ok := dir.Save(Page(title, body), writeOk);
    if !ok {
      return ServerError;
    }
    r := Redirect("/view/" + title);
  }

  /** After a successful save, viewing the same page (in any letter case) renders what was saved. */
  lemma ViewAfterSave(files: Directory, dir: PagesDir, title: string, body: seq<byte>, other: string)
    requires dir.files == Store(files, Page(title, body))
    requires ToLower(other) == ToLower(title)
    ensures ViewHandler(dir, other) == Render("view", Page(other, body))
  {
    LoadAfterSave(files, title, body, other);
  }
}
