/** The page store of main.go: a page is kept as one file named after its
    title, and the directory of files is an immutable map from file name to
    file contents. */
module PageStore {
  import opened Options

  /** One byte of a file or of a request body. */
  newtype byte = x: int | 0 <= x < 0x100

  /** A wiki page: the title it is addressed by and its raw body. */
  datatype Page = Page(title: string, body: seq<byte>)

  /** The working directory: file name to file contents. A file that exists
      but cannot be read is modelled as absent, since main.go treats every
      read failure alike. */
  type Store = map<string, seq<byte>>

  /** The single error `loadPage` reports, whatever made the read fail. */
  datatype LoadError = NotReadable

  /** What writing a page can come to: the directory after the write, or the
      write error. */
  datatype SaveResult = Saved(store: Store) | WriteFailed

  const Extension: string := ".txt"

  /** The file a page with this title is kept in. */
  function FileName(title: string): (name: string)
    ensures |name| == |title| + 4
    ensures name[..|title|] == title
    ensures name[|title|..] == Extension
  {
    title + Extension
  }

  /** Distinct titles are kept in distinct files. */
  lemma FileNameInjective(t1: string, t2: string)
    requires FileName(t1) == FileName(t2)
    ensures t1 == t2
  {
  }

  /** `Page.save`: write the body to the page's file, creating or truncating
      it. `writeFails` stands for the operating system refusing the write. */
  function Save(store: Store, p: Page, writeFails: bool): (r: SaveResult)
    ensures writeFails <==> r.WriteFailed?
    ensures r.Saved? ==> r.store.Keys == store.Keys + {FileName(p.title)}
    ensures r.Saved? ==> r.store[FileName(p.title)] == p.body
    ensures r.Saved? ==> forall f :: f in store && f != FileName(p.title) ==> r.store[f] == store[f]
  {
    if writeFails then WriteFailed else Saved(store[FileName(p.title) := p.body])
  }

  /** `loadPage`: read the page's file; any failure is reported as
      `NotReadable` and no page is returned. */
  function Load(store: Store, title: string): (r: Result<Page, LoadError>)
    ensures r.Ok? <==> FileName(title) in store
    ensures r.Ok? ==> r.value.title == title && r.value.body == store[FileName(title)]
  {
    var name := FileName(title);
    if name in store then Ok(Page(title, store[name])) else Err(NotReadable)
  }

  /** A page that was saved loads back with the same title and body. */
  lemma SaveLoadRoundTrip(store: Store, p: Page)
    ensures Save(store, p, false).Saved?
    ensures Load(Save(store, p, false).store, p.title) == Ok(p)
  {
  }

  /** Saving a page leaves every other page as it loaded before. */
  lemma SaveLeavesOtherPages(store: Store, p: Page, other: string)
    requires other != p.title
    ensures Load(Save(store, p, false).store, other) == Load(store, other)
  {
  }

  /** Saving the same title twice keeps only the second body. */
  lemma LastWriteWins(store: Store, title: string, first: seq<byte>, second: seq<byte>)
    ensures Save(Save(store, Page(title, first), false).store, Page(title, second), false)
            == Save(store, Page(title, second), false)
  {
  }
}
