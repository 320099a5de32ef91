/**
 * The knowledge-context builder of the counselling assistant (`get_knowledge_context`, app.py:93-123).
 *
 * The directory listing and the PDF reader are inputs: each entry of the `docs` directory is its file
 * name together with what reading it yields page by page. The text splitter, the embedding model and
 * the vector search are one oracle that maps the accumulated text and the query to at most four chunk
 * texts, or fails.
 */
module Knowledge {
  import opened Common

  /** The reply when no page of any document gave text (app.py:108). */
  const NoDocumentsSentinel: string := "لا توجد ملفات في مجلد docs."
  /** Only entries whose name ends with this suffix are read (app.py:98). */
  const PdfSuffix: string := ".pdf"
  /** Characters kept by the truncation fallback (app.py:123). */
  const FallbackBudget: nat := 12000
  /** Number of chunks asked of the similarity search (app.py:117). */
  const TopK: nat := 4

  /** What reading one page gives: its extracted text, no text (`None` or `""`), or an exception. */
  datatype PageRead = Extracted(text: string) | NoText | Raises

  /**
   * One entry of the directory listing. `pages` is what the reader produces for it in order; a
   * `Raises` stands for any exception while opening the file, iterating its pages or extracting a
   * page, and the pages after it are never reached. A reader that fails on opening is `[Raises]`.
   */
  datatype Entry = Entry(name: string, pages: seq<PageRead>)

  /**
   * The `docs` directory as `os.path.exists` and `os.listdir` see it (app.py:96-97). A path that
   * exists but cannot be listed (a plain file named `docs`, no read permission) makes `os.listdir`
   * raise outside the `try` of app.py:99, so the whole call raises.
   */
  datatype Directory = Missing | Unlistable | Listed(entries: seq<Entry>)

  /** The similarity search returns at most `TopK` documents. */
  type Hits = s: seq<string> | |s| <= TopK

  /** The outcome of the whole semantic path: the chunk texts found, or any exception on the way. */
  datatype SearchOutcome = Found(chunks: Hits) | SearchFailed

  /** The semantic path as one oracle: from the accumulated text and the query to its outcome. */
  type SemanticSearch = (string, string) -> SearchOutcome

  predicate IsPdf(name: string) {
    |name| >= |PdfSuffix| && name[|name| - |PdfSuffix|..] == PdfSuffix
  }

  /** What one page adds to the accumulator: its text and a newline, when the text is non-empty. */
  function PageText(p: PageRead): string {
    if p.Extracted? && p.text != "" then p.text + "\n" else ""
  }

  /** What one document adds: the text of its pages in order, up to the first page that raises. */
  function DocumentText(pages: seq<PageRead>): string {
    if pages == [] || pages[0].Raises? then "" else PageText(pages[0]) + DocumentText(pages[1..])
  }

  /** What one directory entry adds: nothing unless its name ends with ".pdf". */
  function EntryText(e: Entry): string {
    if IsPdf(e.name) then DocumentText(e.pages) else ""
  }

  /** The accumulated text of a listing: the text of all entries but the last, then the last one's. */
  function CorpusText(entries: seq<Entry>): string {
    if entries == [] then "" else CorpusText(entries[..|entries| - 1]) + EntryText(entries[|entries| - 1])
  }

  /** The accumulated text of a `docs` directory that is missing or listed. */
  function DirectoryText(dir: Directory): string
    requires !dir.Unlistable?
  {
    if dir.Listed? then CorpusText(dir.entries) else ""
  }

  /** Python's `"\n".join(parts)`. */
  function JoinLines(parts: seq<string>): string {
    if parts == [] then ""
    else if |parts| == 1 then parts[0]
    else parts[0] + "\n" + JoinLines(parts[1..])
  }

  /** Python's `s.split("\n")`: the pieces between newlines, always at least one. */
  function SplitLines(s: string): (r: seq<string>)
    ensures |r| >= 1
  {
    if s == [] then [""]
    else if s[0] == '\n' then [""] + SplitLines(s[1..])
    else var rest := SplitLines(s[1..]); [[s[0]] + rest[0]] + rest[1..]
  }

  /** The truncation fallback, `all_text[:12000]`. */
  function FallbackContext(allText: string): string {
    SlicePrefix(allText, FallbackBudget)
  }

  /** The semantic path is attempted only with the libraries present and a non-empty query (app.py:111). */
  predicate SemanticTier(ragAvailable: bool, query: string) {
    ragAvailable && query != ""
  }

  /** The strategy choice of app.py:107-123, given the accumulated text. */
  function ContextFor(allText: string, ragAvailable: bool, query: string, search: SemanticSearch): string {
    if allText == "" then NoDocumentsSentinel
    else if SemanticTier(ragAvailable, query) && search(allText, query).Found? then
      JoinLines(search(allText, query).chunks)
    else FallbackContext(allText)
  }

  /**
   * The page loop of app.py:102-105 for one ".pdf" entry: appends each non-empty page text and a
   * newline to the accumulator, and stops at the first page that raises, keeping what was appended.
   */
  method AppendDocument(acc: string, pages: seq<PageRead>) returns (allText: string)
    ensures allText == acc + DocumentText(pages)
  {
    allText := acc;
    var j := 0;
    while j < |pages|
      invariant 0 <= j <= |pages|
      invariant allText + DocumentText(pages[j..]) == acc + DocumentText(pages)
    {
      var page := pages[j];
      if page.Raises? {
        break;
      }
      if page.Extracted? && page.text != "" {
        allText := allText + page.text + "\n";
      }
      assert pages[j..][1..] == pages[j + 1..];
      j := j + 1;
    }
  }

  /**
   * The directory loop of app.py:95-98: every entry in listing order, reading only ".pdf" ones.
   * `None` is the exception `os.listdir` raises for a directory it cannot list.
   */
  method ExtractAllText(dir: Directory) returns (allText: Option<string>)
    ensures allText.None? <==> dir.Unlistable?
    ensures allText.Some? ==> allText.value == DirectoryText(dir)
  {
    if dir.Unlistable? {
      return None;
    }
    var text := "";
    if dir.Listed? {
      var entries := dir.entries;
      var i := 0;
      while i < |entries|
        invariant 0 <= i <= |entries|
        invariant text == CorpusText(entries[..i])
      {
        var e := entries[i];
        if IsPdf(e.name) {
          text := AppendDocument(text, e.pages);
        }
        assert entries[..i + 1][..i] == entries[..i];
        i := i + 1;
      }
      assert entries[..i] == entries;
    }
    allText := Some(text);
  }

  /**
   * What `get_knowledge_context(user_query)` returns: `None` when it raises, which only an
   * unlistable directory causes; otherwise the text `ContextFor` chooses.
   */
  function KnowledgeContext(dir: Directory, ragAvailable: bool, query: string, search: SemanticSearch): Option<string> {
    if dir.Unlistable? then None else Some(ContextFor(DirectoryText(dir), ragAvailable, query, search))
  }

  /** `get_knowledge_context(user_query)` (app.py:93-123). */
  method GetKnowledgeContext(dir: Directory, ragAvailable: bool, query: string, search: SemanticSearch)
    returns (context: Option<string>)
    ensures context == KnowledgeContext(dir, ragAvailable, query, search)
    ensures context.None? <==> dir.Unlistable?
    ensures context.Some? ==> context.value == ContextFor(DirectoryText(dir), ragAvailable, query, search)
  {
    var extracted := ExtractAllText(dir);
    if extracted.None? {
      return None;
    }
    var allText := extracted.value;
    if allText == "" {
      return Some(NoDocumentsSentinel);
    }
    if ragAvailable && query != "" {
      var outcome := search(allText, query);
      if outcome.Found? {
        return Some(JoinLines(outcome.chunks));
      }
    }
    context := Some(FallbackContext(allText));
  }

  // ---------------------------------------------------------------------------------------------
  // Accumulation

  /** The text of a listing is the text of its first part followed by the text of the rest. */
  lemma {:induction false} CorpusTextAppend(a: seq<Entry>, b: seq<Entry>)
    ensures CorpusText(a + b) == CorpusText(a) + CorpusText(b)
  {
    if b == [] {
      assert a + b == a;
    } else {
      var init, last := b[..|b| - 1], b[|b| - 1];
      assert b == init + [last];
      ConcatAssoc(a, init, [last]);
      LastEntryStep(a + init, last);
      CorpusTextAppend(a, init);
      ConcatAssoc(CorpusText(a), CorpusText(init), EntryText(last));
      LastEntryStep(init, last);
    }
  }

  /** The text of a listing with one more entry at the end. */
  lemma LastEntryStep(entries: seq<Entry>, e: Entry)
    ensures CorpusText(entries + [e]) == CorpusText(entries) + EntryText(e)
  {
    var s := entries + [e];
    assert s[..|s| - 1] == entries && s[|s| - 1] == e;
  }

  /** Concatenation regroups freely; kept as a named step so that the proofs using it stay small. */
  lemma ConcatAssoc<T>(x: seq<T>, y: seq<T>, z: seq<T>)
    ensures (x + y) + z == x + (y + z)
  {
  }

  /** An entry whose name does not end with ".pdf" leaves the accumulated text unchanged, wherever it stands. */
  lemma NonPdfEntryIgnored(a: seq<Entry>, e: Entry, b: seq<Entry>)
    requires !IsPdf(e.name)
    ensures CorpusText(a + [e] + b) == CorpusText(a + b)
  {
    DocumentsInOrder(a, e, b);
    CorpusTextAppend(a, b);
    assert EntryText(e) == "";
    assert CorpusText(a) + EntryText(e) == CorpusText(a);
  }

  /** The entries of a listing whose names end with ".pdf", in order. */
  function PdfEntries(entries: seq<Entry>): (r: seq<Entry>)
    ensures |r| <= |entries|
    ensures forall i :: 0 <= i < |r| ==> IsPdf(r[i].name)
  {
    if entries == [] then []
    else
      var init, last := entries[..|entries| - 1], entries[|entries| - 1];
      if IsPdf(last.name) then PdfEntries(init) + [last] else PdfEntries(init)
  }

  /** Only the ".pdf" entries contribute: dropping all others gives the same text. */
  lemma {:induction false} OnlyPdfEntriesContribute(entries: seq<Entry>)
    ensures CorpusText(entries) == CorpusText(PdfEntries(entries))
  {
    if entries != [] {
      var init, last := entries[..|entries| - 1], entries[|entries| - 1];
      OnlyPdfEntriesContribute(init);
      if IsPdf(last.name) {
        var p := PdfEntries(init) + [last];
        assert p[..|p| - 1] == PdfEntries(init) && p[|p| - 1] == last;
      }
    }
  }

  /** Each document contributes in listing order, whatever happened to the documents before it. */
  lemma DocumentsInOrder(a: seq<Entry>, e: Entry, b: seq<Entry>)
    ensures CorpusText(a + [e] + b) == CorpusText(a) + EntryText(e) + CorpusText(b)
  {
    CorpusTextAppend(a + [e], b);
    CorpusTextAppend(a, [e]);
    assert [e][0] == e && [e][1..] == [];
    assert CorpusText([e]) == EntryText(e) + "";
    assert EntryText(e) + "" == EntryText(e);
  }

  /** Pages that read without error contribute in order: text of the first part, then of the rest. */
  lemma {:induction false} DocumentTextAppend(a: seq<PageRead>, b: seq<PageRead>)
    requires forall i :: 0 <= i < |a| ==> !a[i].Raises?
    ensures DocumentText(a + b) == DocumentText(a) + DocumentText(b)
  {
    if a != [] {
      assert (a + b)[0] == a[0] && (a + b)[1..] == a[1..] + b;
      DocumentTextAppend(a[1..], b);
      var x, y, z := PageText(a[0]), DocumentText(a[1..]), DocumentText(b);
      assert x + (y + z) == (x + y) + z;
    } else {
      assert a + b == b;
    }
  }

  /** A failure keeps the text of the pages before it and nothing of the pages after it. */
  lemma {:induction false} FailureKeepsPrefix(a: seq<PageRead>, b: seq<PageRead>)
    ensures DocumentText(a + [Raises] + b) == DocumentText(a)
  {
    if a == [] {
      assert (a + [Raises] + b)[0] == Raises;
    } else {
      assert (a + [Raises] + b)[0] == a[0] && (a + [Raises] + b)[1..] == a[1..] + [Raises] + b;
      FailureKeepsPrefix(a[1..], b);
    }
  }

  /** A page with no text or an empty text contributes nothing, wherever it stands. */
  lemma {:induction false} BlankPageIgnored(a: seq<PageRead>, p: PageRead, b: seq<PageRead>)
    requires p == NoText || p == Extracted("")
    ensures DocumentText(a + [p] + b) == DocumentText(a + b)
  {
    if a == [] {
      assert a + [p] + b == [p] + b && a + b == b;
      assert ([p] + b)[0] == p && ([p] + b)[1..] == b;
    } else {
      assert (a + [p] + b)[0] == a[0] && (a + [p] + b)[1..] == a[1..] + [p] + b;
      assert (a + b)[0] == a[0] && (a + b)[1..] == a[1..] + b;
      BlankPageIgnored(a[1..], p, b);
    }
  }

  /** A page with non-empty text contributes exactly that text and a newline. */
  lemma PageContributesLine(t: string)
    requires t != ""
    ensures DocumentText([Extracted(t)]) == t + "\n"
  {
  }

  /** Accumulated document text is empty or ends with a newline. */
  lemma {:induction false} DocumentTextShape(pages: seq<PageRead>)
    ensures var t := DocumentText(pages); t == "" || t[|t| - 1] == '\n'
  {
    if pages != [] && !pages[0].Raises? {
      DocumentTextShape(pages[1..]);
    }
  }

  /** Accumulated corpus text is empty or ends with a newline. */
  lemma {:induction false} CorpusTextShape(entries: seq<Entry>)
    ensures var t := CorpusText(entries); t == "" || t[|t| - 1] == '\n'
  {
    if entries != [] {
      var last := entries[|entries| - 1];
      CorpusTextShape(entries[..|entries| - 1]);
      if IsPdf(last.name) {
        DocumentTextShape(last.pages);
      }
    }
  }

  // ---------------------------------------------------------------------------------------------
  // Strategy choice

  /**
   * With no accumulated text the result is the sentinel, whatever the query, the flag and the search.
   * Conversely, whenever the truncation tier answers, the result is the sentinel only if there was no text.
   */
  lemma SentinelExactlyWhenNoText(dir: Directory, ragAvailable: bool, query: string, search: SemanticSearch)
    requires !dir.Unlistable?
    ensures DirectoryText(dir) == "" ==> ContextFor(DirectoryText(dir), ragAvailable, query, search) == NoDocumentsSentinel
    ensures (!SemanticTier(ragAvailable, query) || search(DirectoryText(dir), query).SearchFailed?)
            && ContextFor(DirectoryText(dir), ragAvailable, query, search) == NoDocumentsSentinel
            ==> DirectoryText(dir) == ""
  {
    var t := DirectoryText(dir);
    if t != "" && (!SemanticTier(ragAvailable, query) || search(t, query).SearchFailed?) {
      CorpusTextShape(dir.entries);
      var r := FallbackContext(t);
      if |t| <= FallbackBudget {
        assert r == t;
        assert NoDocumentsSentinel[|NoDocumentsSentinel| - 1] == '.';
      } else {
        assert |r| == FallbackBudget;
      }
    }
  }

  /** On the semantic tier a chunk may itself spell the sentinel, so there the converse does not hold. */
  lemma SemanticHitCanSpellSentinel()
    ensures var dir := Listed([Entry("notes.pdf", [Extracted(NoDocumentsSentinel)])]);
            var search: SemanticSearch := (t, q) => Found([NoDocumentsSentinel]);
            DirectoryText(dir) != "" && ContextFor(DirectoryText(dir), true, "?", search) == NoDocumentsSentinel
  {
  }

  /** Off the semantic tier the result is `all_text[:12000]` and depends on neither query nor search. */
  lemma FallbackIgnoresQuery(allText: string, rag1: bool, q1: string, s1: SemanticSearch,
                             rag2: bool, q2: string, s2: SemanticSearch)
    requires allText != ""
    requires !SemanticTier(rag1, q1) && !SemanticTier(rag2, q2)
    ensures var r := ContextFor(allText, rag1, q1, s1);
            r == ContextFor(allText, rag2, q2, s2) && r <= allText && |r| == Min(FallbackBudget, |allText|)
  {
  }

  /** A failing semantic path answers exactly as the truncation fallback does. */
  lemma SemanticFailureFallsBack(allText: string, query: string, search: SemanticSearch)
    requires search(allText, query).SearchFailed?
    ensures ContextFor(allText, true, query, search) == ContextFor(allText, false, query, search)
  {
  }

  /**
   * On the semantic tier with a successful search, the result is the hits in the order the search
   * returned them, each verbatim at its offset and separated by single newlines. When the hits are
   * non-empty and no hit holds a newline, splitting the result at newlines gives them back.
   */
  lemma SemanticResultIsJoinedHits(allText: string, query: string, search: SemanticSearch)
    requires allText != "" && query != ""
    requires search(allText, query).Found?
    ensures var hits := search(allText, query).chunks;
            |hits| <= TopK && JoinedLayout(hits, ContextFor(allText, true, query, search))
    ensures var hits := search(allText, query).chunks;
            hits != [] && (forall c :: c in hits ==> '\n' !in c) ==>
            SplitLines(ContextFor(allText, true, query, search)) == hits
  {
    var hits := search(allText, query).chunks;
    assert ContextFor(allText, true, query, search) == JoinLines(hits);
    JoinLinesLayout(hits);
    if hits != [] && (forall c :: c in hits ==> '\n' !in c) {
      SplitJoin(hits);
    }
  }

  // ---------------------------------------------------------------------------------------------
  // Joining and splitting chunk texts

  /** Where part `i` starts in `"\n".join(parts)`: after each earlier part and its newline. */
  function JoinOffset(parts: seq<string>, i: nat): nat
    requires i <= |parts|
  {
    if i == 0 then 0 else |parts[0]| + 1 + JoinOffset(parts[1..], i - 1)
  }

  /**
   * `r` lays out `parts` as `"\n".join` does: every part verbatim at its offset, a newline before
   * each later part, nothing after the last part, and the empty string for no parts.
   */
  ghost predicate JoinedLayout(parts: seq<string>, r: string) {
    && (parts == [] ==> r == "")
    && (parts != [] ==> |r| == JoinOffset(parts, |parts| - 1) + |parts[|parts| - 1]|)
    && (forall i :: 0 <= i < |parts| ==>
          JoinOffset(parts, i) + |parts[i]| <= |r|
          && r[JoinOffset(parts, i)..JoinOffset(parts, i) + |parts[i]|] == parts[i])
    && (forall i :: 0 < i < |parts| ==>
          0 < JoinOffset(parts, i) <= |r| && r[JoinOffset(parts, i) - 1] == '\n')
  }

  /** `"\n".join(parts)` has the layout `JoinedLayout` describes. */
  lemma JoinLinesLayout(parts: seq<string>)
    ensures JoinedLayout(parts, JoinLines(parts))
  {
    if parts != [] {
      JoinLength(parts);
    }
    forall i | 0 <= i < |parts|
      ensures JoinOffset(parts, i) + |parts[i]| <= |JoinLines(parts)|
      ensures JoinLines(parts)[JoinOffset(parts, i)..JoinOffset(parts, i) + |parts[i]|] == parts[i]
      ensures i > 0 ==> 0 < JoinOffset(parts, i) && JoinLines(parts)[JoinOffset(parts, i) - 1] == '\n'
    {
      JoinPartAt(parts, i);
    }
  }

  /** The length of `"\n".join(parts)` ends where its last part ends. */
  lemma {:induction false} JoinLength(parts: seq<string>)
    requires parts != []
    ensures |JoinLines(parts)| == JoinOffset(parts, |parts| - 1) + |parts[|parts| - 1]|
  {
    if |parts| > 1 {
      JoinLength(parts[1..]);
    }
  }

  /** Part `i` of `"\n".join(parts)` sits verbatim at its offset, after a newline unless it is the first. */
  lemma {:induction false} JoinPartAt(parts: seq<string>, i: nat)
    requires i < |parts|
    ensures var j, o := JoinLines(parts), JoinOffset(parts, i);
            o + |parts[i]| <= |j| && j[o..o + |parts[i]|] == parts[i]
            && (i > 0 ==> 0 < o && j[o - 1] == '\n')
  {
    if i > 0 {
      var rest := parts[1..];
      JoinPartAt(rest, i - 1);
      var j, n, o := JoinLines(rest), |parts[0]| + 1, JoinOffset(rest, i - 1);
      assert JoinLines(parts) == parts[0] + "\n" + j;
      assert rest[i - 1] == parts[i];
      assert JoinLines(parts)[n + o..n + o + |parts[i]|] == j[o..o + |parts[i]|];
    } else if |parts| > 1 {
      assert JoinLines(parts) == parts[0] + "\n" + JoinLines(parts[1..]);
    }
  }

  lemma {:induction false} SplitLineFree(a: string)
    requires '\n' !in a
    ensures SplitLines(a) == [a]
  {
    if a != [] {
      assert '\n' !in a[1..] by { assert forall k :: 0 <= k < |a[1..]| ==> a[1..][k] == a[k + 1]; }
      SplitLineFree(a[1..]);
      assert [a[0]] + a[1..] == a;
    }
  }

  lemma {:induction false} SplitAtNewline(a: string, b: string)
    requires '\n' !in a
    ensures SplitLines(a + "\n" + b) == [a] + SplitLines(b)
  {
    var s := a + "\n" + b;
    if a == [] {
      assert s[0] == '\n' && s[1..] == b;
    } else {
      assert s[0] == a[0] && s[1..] == a[1..] + "\n" + b;
      assert '\n' !in a[1..] by { assert forall k :: 0 <= k < |a[1..]| ==> a[1..][k] == a[k + 1]; }
      SplitAtNewline(a[1..], b);
      assert [a[0]] + a[1..] == a;
    }
  }

  /** `"\n".join` is undone by `split("\n")` when no part holds a newline. */
  lemma {:induction false} SplitJoin(parts: seq<string>)
    requires parts != []
    requires forall c :: c in parts ==> '\n' !in c
    ensures SplitLines(JoinLines(parts)) == parts
  {
    if |parts| == 1 {
      SplitLineFree(parts[0]);
    } else {
      assert parts[0] in parts;
      assert forall c :: c in parts[1..] ==> c in parts;
      SplitJoin(parts[1..]);
      SplitAtNewline(parts[0], JoinLines(parts[1..]));
      assert [parts[0]] + parts[1..] == parts;
    }
  }
}
