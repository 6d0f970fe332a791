/** The indexing script of the RAG web app: PDF files of a directory are loaded and split
    into chunks, each chunk is stamped with its file's name and the processing time, and
    short or purely numeric chunks can be filtered out.

    Loading and splitting a PDF, the clock, the embedding model and the vector store are
    outside the model: what loading and splitting a file yields (or `None` when it fails)
    and the timestamp are parameters. */
module DocumentIndexer {
  import opened Wrappers
  import opened Text

  datatype Chunk = Chunk(pageContent: string, metadata: map<string, string>)

  /** The content matches `^\s*[0-9\s]+$`: it is not empty and every character is white
      space or a digit. */
  predicate OnlyDigitsAndSpace(s: string) {
    s != [] && forall i :: 0 <= i < |s| ==> IsSpace(s[i]) || IsDigit(s[i])
  }

  /** A chunk worth keeping: more than 50 characters once trimmed, and not just numbers. */
  predicate Usable(c: Chunk) {
    |Trim(c.pageContent)| > 50 && !OnlyDigitsAndSpace(c.pageContent)
  }

  /** The usable chunks, in their original order. */
  function ValidateDocuments(docs: seq<Chunk>): (r: seq<Chunk>)
    ensures |r| <= |docs|
    ensures forall c :: c in r <==> c in docs && Usable(c)
  {
    if docs == [] then []
    else (if Usable(docs[0]) then [docs[0]] else []) + ValidateDocuments(docs[1..])
  }

  /** Validation works chunk by chunk: the kept chunks of two lists in a row are those of
      the first followed by those of the second. */
  lemma {:induction false} ValidateAppend(a: seq<Chunk>, b: seq<Chunk>)
    ensures ValidateDocuments(a + b) == ValidateDocuments(a) + ValidateDocuments(b)
  {
    if a == [] {
      assert a + b == b;
    } else {
      assert (a + b)[0] == a[0] && (a + b)[1..] == a[1..] + b;
      ValidateAppend(a[1..], b);
    }
  }

  /** A single chunk is kept exactly when it is usable. */
  lemma ValidateOne(c: Chunk)
    ensures ValidateDocuments([c]) == if Usable(c) then [c] else []
  {
    assert [c][1..] == [];
  }

  /** Each usable chunk is kept as many times as it occurs, and no other chunk is kept. */
  lemma {:induction false} ValidateCounts(docs: seq<Chunk>)
    ensures forall c :: multiset(ValidateDocuments(docs))[c] == if Usable(c) then multiset(docs)[c] else 0
  {
    if docs != [] {
      ValidateCounts(docs[1..]);
      assert docs == [docs[0]] + docs[1..];
      ValidateAppend([docs[0]], docs[1..]);
      ValidateOne(docs[0]);
    }
  }

  /** `sub` is `docs` with some elements left out and the rest in order. */
  predicate Subsequence(sub: seq<Chunk>, docs: seq<Chunk>)
    decreases |docs|
  {
    if sub == [] then true
    else if docs == [] then false
    else if sub[0] == docs[0] then Subsequence(sub[1..], docs[1..])
    else Subsequence(sub, docs[1..])
  }

  lemma {:induction false} ValidatedIsSubsequence(docs: seq<Chunk>)
    ensures Subsequence(ValidateDocuments(docs), docs)
  {
    if docs != [] {
      ValidatedIsSubsequence(docs[1..]);
      if Usable(docs[0]) {
        assert ValidateDocuments(docs)[1..] == ValidateDocuments(docs[1..]);
      } else {
        assert ValidateDocuments(docs) == ValidateDocuments(docs[1..]);
        SubsequenceSkip(ValidateDocuments(docs[1..]), docs);
      }
    }
  }

  /** A subsequence of the tail is a subsequence of the whole. */
  lemma {:induction false} SubsequenceSkip(sub: seq<Chunk>, docs: seq<Chunk>)
    requires docs != [] && Subsequence(sub, docs[1..])
    ensures Subsequence(sub, docs)
    decreases |sub| + |docs|, 1
  {
    if sub != [] && sub[0] == docs[0] {
      SubsequenceTail(sub, docs[1..]);
    }
  }

  /** Dropping the first element of a subsequence leaves a subsequence. */
  lemma {:induction false} SubsequenceTail(sub: seq<Chunk>, docs: seq<Chunk>)
    requires sub != [] && Subsequence(sub, docs)
    ensures Subsequence(sub[1..], docs)
    decreases |sub| + |docs|, 0
  {
    if sub[0] != docs[0] {
      SubsequenceTail(sub, docs[1..]);
      SubsequenceSkip(sub[1..], docs);
    } else if sub[1..] != [] {
      SubsequenceSkip(sub[1..], docs);
    }
  }

  /** Filtering twice keeps what filtering once keeps. */
  lemma {:induction false} ValidateIdempotent(docs: seq<Chunk>)
    ensures ValidateDocuments(ValidateDocuments(docs)) == ValidateDocuments(docs)
  {
    if docs != [] {
      var rest := ValidateDocuments(docs[1..]);
      ValidateIdempotent(docs[1..]);
      if Usable(docs[0]) {
        var r := [docs[0]] + rest;
        assert ValidateDocuments(docs) == r;
        assert r[0] == docs[0] && r[1..] == rest;
        assert ValidateDocuments(r) == [docs[0]] + ValidateDocuments(rest);
      } else {
        assert ValidateDocuments(docs) == rest;
      }
    }
  }

  /** The position of the last `c` in `s`. */
  function LastIndexOf(s: string, c: char): (r: Option<nat>)
    ensures r.Some? ==> r.value < |s| && s[r.value] == c && forall j :: r.value < j < |s| ==> s[j] != c
    ensures r.None? ==> forall j :: 0 <= j < |s| ==> s[j] != c
  {
    if s == [] then None
    else if s[|s| - 1] == c then Some(|s| - 1)
    else LastIndexOf(s[..|s| - 1], c)
  }

  /** `path.basename` of a path that does not end in a separator: what follows the last
      `/`. */
  function Basename(path: string): (r: string)
    ensures EndsWith(path, r) && forall j :: 0 <= j < |r| ==> r[j] != '/'
  {
    match LastIndexOf(path, '/')
    case None => path
    case Some(k) => path[k + 1..]
  }

  /** `path.extname` of a file name without separators: from the last dot on, unless there
      is no dot, the only dot that counts is the leading one, or the name is `..`. */
  function Extname(name: string): (r: string)
    ensures r == [] || (r[0] == '.' && EndsWith(name, r) && |r| < |name|)
  {
    match LastIndexOf(name, '.')
    case None => ""
    case Some(k) => if k == 0 || name == ".." then "" else name[k..]
  }

  /** The script's filter: the extension, lower-cased, is `.pdf`. */
  predicate IsPdf(name: string) {
    Lower(Extname(name)) == ".pdf"
  }

  /** A name is kept exactly when it ends in `.pdf` in any letter case and has something
      before that. */
  lemma IsPdfIff(name: string)
    ensures IsPdf(name) <==> |name| >= 5 && Lower(name[|name| - 4..]) == ".pdf"
  {
    var ext := Extname(name);
    var n := |name|;
    if IsPdf(name) {
      assert |ext| == 4;
      assert ext == name[n - 4..];
    }
    if n >= 5 && Lower(name[n - 4..]) == ".pdf" {
      assert name[n - 4] == '.' by { assert LowerChar(name[n - 4]) == Lower(name[n - 4..])[0]; }
      forall j | n - 4 < j < n ensures name[j] != '.' {
        assert LowerChar(name[j]) == Lower(name[n - 4..])[j - (n - 4)];
      }
      assert LastIndexOf(name, '.') == Some(n - 4);
      assert ext == name[n - 4..];
    }
  }

  /** `path.join(directory, name)` for a plain name. */
  function JoinPath(directory: string, name: string): string {
    directory + "/" + name
  }

  lemma BasenameOfJoin(directory: string, name: string)
    requires forall j :: 0 <= j < |name| ==> name[j] != '/'
    ensures Basename(JoinPath(directory, name)) == name
  {
    var p := JoinPath(directory, name);
    assert p[|directory|] == '/';
    assert LastIndexOf(p, '/') == Some(|directory|);
    assert p[|directory| + 1..] == name;
  }

  /** One chunk stamped with its file's name and the processing time, over its own
      metadata. */
  function Stamp(c: Chunk, source: string, now: string): (s: Chunk)
    ensures s.pageContent == c.pageContent
    ensures s.metadata.Keys == c.metadata.Keys + {"source", "processed_at"}
    ensures s.metadata["source"] == source && s.metadata["processed_at"] == now
    ensures forall k :: k in c.metadata && k != "source" && k != "processed_at" ==> s.metadata[k] == c.metadata[k]
  {
    Chunk(c.pageContent, c.metadata["source" := source]["processed_at" := now])
  }

  /** The chunks of one file, each stamped; none when loading or splitting fails. */
  function ProcessDocument(filePath: string, load: string -> Option<seq<Chunk>>, now: string): (r: seq<Chunk>)
    ensures load(filePath).None? ==> r == []
    ensures load(filePath).Some? ==>
      && |r| == |load(filePath).value|
      && forall i :: 0 <= i < |r| ==> r[i] == Stamp(load(filePath).value[i], Basename(filePath), now)
  {
    match load(filePath)
    case None => []
    case Some(raw) => seq(|raw|, i requires 0 <= i < |raw| => Stamp(raw[i], Basename(filePath), now))
  }

  /** The PDF names of a listing, in listing order. */
  function PdfFiles(names: seq<string>): (r: seq<string>)
    ensures forall n :: n in r <==> n in names && IsPdf(n)
  {
    if names == [] then []
    else PdfFiles(names[..|names| - 1]) + (if IsPdf(names[|names| - 1]) then [names[|names| - 1]] else [])
  }

  /** All chunks of the PDF files among `names`, file after file. */
  function AllChunks(directory: string, names: seq<string>, load: string -> Option<seq<Chunk>>, now: string): seq<Chunk>
  {
    if names == [] then []
    else
      var last := names[|names| - 1];
      AllChunks(directory, names[..|names| - 1], load, now)
        + (if IsPdf(last) then ProcessDocument(JoinPath(directory, last), load, now) else [])
  }

  /** Goes through the directory listing and collects the chunks of every PDF file in
      order; also reports how many files were PDF files. */
  method IndexDocumentsFromDirectory(directory: string, names: seq<string>,
                                     load: string -> Option<seq<Chunk>>, now: string)
    returns (documents: seq<Chunk>, pdfCount: nat)
    ensures documents == AllChunks(directory, names, load, now)
    ensures pdfCount == |PdfFiles(names)|
  {
    documents, pdfCount := [], 0;
    var i := 0;
    while i < |names|
      invariant 0 <= i <= |names|
      invariant documents == AllChunks(directory, names[..i], load, now)
      invariant pdfCount == |PdfFiles(names[..i])|
    {
      assert names[..i + 1][..i] == names[..i];
      if IsPdf(names[i]) {
        var processed := ProcessDocument(JoinPath(directory, names[i]), load, now);
        documents := documents + processed;
        pdfCount := pdfCount + 1;
      }
      i := i + 1;
    }
    assert names[..|names|] == names;
  }

  /** Every collected chunk comes from a PDF file of the listing and carries that file's
      name as its source. */
  lemma {:induction false} ChunksComeFromPdfFiles(directory: string, names: seq<string>,
                                                  load: string -> Option<seq<Chunk>>, now: string)
    requires forall n :: n in names ==> forall j :: 0 <= j < |n| ==> n[j] != '/'
    ensures forall c :: c in AllChunks(directory, names, load, now) ==>
      "source" in c.metadata && c.metadata["source"] in names && IsPdf(c.metadata["source"])
  {
    if names != [] {
      var last := names[|names| - 1];
      var init := names[..|names| - 1];
      ChunksComeFromPdfFiles(directory, init, load, now);
      if IsPdf(last) {
        BasenameOfJoin(directory, last);
      }
      forall c | c in AllChunks(directory, names, load, now)
        ensures "source" in c.metadata && c.metadata["source"] in names && IsPdf(c.metadata["source"])
      {
        if c in AllChunks(directory, init, load, now) {
          assert c.metadata["source"] in init;
        } else {
          var p := ProcessDocument(JoinPath(directory, last), load, now);
          assert c in p;
          var i :| 0 <= i < |p| && p[i] == c;
          assert c.metadata["source"] == last;
        }
      }
    }
  }
}
