/** The three file helpers of the assistant, over an abstract file store.

    The file system is a finite map from file name to file content. File
    names are opaque keys: no paths, directories, permissions or encodings. */
module FileOps {

  import opened Wrappers

  type Store = map<string, string>

  /** The text `read_file` and `delete_file` give back for a missing file. */
  const NotFound: string := "\U{274C} File not found."

  /** `create_file`: write `content` to `filename`, replacing whatever was there. */
  function CreateFile(store: Store, filename: string, content: string): (r: Store)
    ensures filename in r && r[filename] == content
    ensures r.Keys == store.Keys + {filename}
    ensures forall g :: g in store && g != filename ==> r[g] == store[g]
  {
    store[filename := content]
  }

  /** What a text-mode read makes of stored text (Python's universal
      newlines): each `\r\n` and each lone `\r` becomes `\n`. A text-mode
      write on a POSIX system stores the text unchanged. */
  function UniversalNewlines(text: string): (r: string)
    ensures '\r' !in r
    ensures '\r' !in text ==> r == text
    ensures |r| <= |text|
    decreases |text|
  {
    if text == [] then []
    else if text[0] == '\r' && |text| > 1 && text[1] == '\n' then "\n" + UniversalNewlines(text[2..])
    else if text[0] == '\r' then "\n" + UniversalNewlines(text[1..])
    else [text[0]] + UniversalNewlines(text[1..])
  }

  /** First pass of a reference translation: each `\r\n` pair becomes `\n`. */
  function PairsToLF(text: string): string
    decreases |text|
  {
    if text == [] then []
    else if |text| > 1 && text[0] == '\r' && text[1] == '\n' then "\n" + PairsToLF(text[2..])
    else [text[0]] + PairsToLF(text[1..])
  }

  /** Second pass: every remaining `\r` becomes `\n`, character by character. */
  function CRToLF(text: string): string {
    seq(|text|, i requires 0 <= i < |text| => if text[i] == '\r' then '\n' else text[i])
  }

  lemma CRToLFAppend(a: string, b: string)
    ensures CRToLF(a + b) == CRToLF(a) + CRToLF(b)
  {
  }

  /** The one-pass translation equals the two-pass reference: pairs first,
      then lone carriage returns. */
  lemma {:induction false} TwoPasses(text: string)
    ensures UniversalNewlines(text) == CRToLF(PairsToLF(text))
    decreases |text|
  {
    if text == [] {
    } else if text[0] == '\r' && |text| > 1 && text[1] == '\n' {
      TwoPasses(text[2..]);
      CRToLFAppend("\n", PairsToLF(text[2..]));
    } else {
      TwoPasses(text[1..]);
      CRToLFAppend([text[0]], PairsToLF(text[1..]));
    }
  }

  /** Both kinds of carriage return are read as one line feed. */
  lemma UniversalNewlinesExamples()
    ensures UniversalNewlines("a\r\nb") == "a\nb"
    ensures UniversalNewlines("a\rb") == "a\nb"
    ensures UniversalNewlines("a\r\r\nb") == "a\n\nb"
  {
    assert UniversalNewlines("b") == "b";
    assert "a\r\nb"[1..][2..] == "b";
    assert "a\r\r\nb"[1..][1..] == "\r\nb";
  }

  /** `read_file`: the text of `filename` as a text-mode read returns it, or
      the not-found text when the file is absent. Reading never changes the
      store, so only the text is returned. */
  function ReadFile(store: Store, filename: string): (r: string)
    ensures filename in store ==> '\r' !in r && |r| <= |store[filename]|
    ensures filename in store && '\r' !in store[filename] ==> r == store[filename]
    ensures filename !in store ==> r == NotFound
  {
    if filename in store then UniversalNewlines(store[filename]) else NotFound
  }

  /** What `delete_file` leaves behind: the new store and the helper's return
      value (`None` after a removal, the not-found text otherwise). */
  datatype Deletion = Deletion(store: Store, returned: Option<string>)

  /** `delete_file`: remove `filename`; a missing file is reported, not raised. */
  function DeleteFile(store: Store, filename: string): (r: Deletion)
    ensures filename !in r.store
    ensures r.store.Keys == store.Keys - {filename}
    ensures forall g :: g in r.store ==> r.store[g] == store[g]
    ensures filename !in store ==> r.store == store
    ensures r.returned.Some? <==> filename !in store
    ensures r.returned.Some? ==> r.returned.value == NotFound
  {
    if filename in store then Deletion(store - {filename}, None)
    else Deletion(store, Some(NotFound))
  }

  /** A read after a create returns what was written, whatever the store
      held before, with carriage returns read as line feeds; text without a
      carriage return comes back exactly. */
  lemma CreateThenRead(store: Store, filename: string, content: string)
    ensures ReadFile(CreateFile(store, filename, content), filename) == UniversalNewlines(content)
    ensures '\r' !in content ==> ReadFile(CreateFile(store, filename, content), filename) == content
  {
  }

  /** A text with a carriage return does not survive the round trip. */
  lemma CarriageReturnIsNotKept(store: Store, filename: string)
    ensures ReadFile(CreateFile(store, filename, "a\r\nb"), filename) == "a\nb" != "a\r\nb"
  {
    UniversalNewlinesExamples();
  }

  /** Creating twice is a full overwrite: only the latest content survives. */
  lemma CreateOverwrites(store: Store, filename: string, first: string, second: string)
    ensures CreateFile(CreateFile(store, filename, first), filename, second)
         == CreateFile(store, filename, second)
  {
  }

  /** A read after a delete yields the not-found text, never an error. */
  lemma DeleteThenRead(store: Store, filename: string)
    ensures ReadFile(DeleteFile(store, filename).store, filename) == NotFound
  {
  }

  /** Deleting a file that a create has just written restores the store as it
      was, provided the file was not there before. */
  lemma CreateThenDelete(store: Store, filename: string, content: string)
    requires filename !in store
    ensures DeleteFile(CreateFile(store, filename, content), filename) == Deletion(store, None)
  {
    assert CreateFile(store, filename, content) - {filename} == store;
  }

  /** The read text cannot tell a missing file from a file whose content is
      the not-found text itself. */
  lemma NotFoundIsAmbiguous(store: Store, filename: string)
    requires filename !in store
    ensures ReadFile(store, filename) == ReadFile(CreateFile(store, filename, NotFound), filename)
    ensures store != CreateFile(store, filename, NotFound)
  {
    NotFoundHasNoCarriageReturn();
  }

  lemma NotFoundHasNoCarriageReturn()
    ensures '\r' !in NotFound
  {
  }
}
