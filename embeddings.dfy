/**
 * Text preparation around the embedding calls (my-ai-app/lib/ai/embeddings.ts): sentence chunks
 * of a trimmed text, the pairing of chunks with the vectors the model returns, and the input
 * clean-up of a single-value embedding. The embedding model is an oracle.
 */
module Embeddings {
  import opened Wrappers
  import opened Strings

  // ---------------------------------------------------------------------------------------------
  // `String.prototype.trim`

  /** The ECMAScript WhiteSpace and LineTerminator code points, which `trim` removes at both ends. */
  predicate IsWhitespace(c: char)
  {
    || c == '\t' || c == '\U{000B}' || c == '\U{000C}' || c == ' ' || c == '\U{00A0}' || c == '\U{FEFF}'
    || c == '\U{1680}' || ('\U{2000}' <= c <= '\U{200A}') || c == '\U{202F}' || c == '\U{205F}'
    || c == '\U{3000}'
    || c == '\n' || c == '\r' || c == '\U{2028}' || c == '\U{2029}'
  }

  /** Drops the leading whitespace: what is left is a suffix that starts with a non-whitespace character. */
  function TrimStart(s: string): (r: string)
    ensures |r| <= |s| && r == s[|s| - |r|..]
    ensures forall k :: 0 <= k < |s| - |r| ==> IsWhitespace(s[k])
    ensures r == [] || !IsWhitespace(r[0])
  {
    if s != [] && IsWhitespace(s[0]) then TrimStart(s[1..]) else s
  }

  /** Drops the trailing whitespace: what is left is a prefix that ends with a non-whitespace character. */
  function TrimEnd(s: string): (r: string)
    ensures |r| <= |s| && r == s[..|r|]
    ensures forall k :: |r| <= k < |s| ==> IsWhitespace(s[k])
    ensures r == [] || !IsWhitespace(r[|r| - 1])
  {
    if s != [] && IsWhitespace(s[|s| - 1]) then TrimEnd(s[..|s| - 1]) else s
  }

  /** `r` is `s[i..i + |r|]` and everything of `s` around it is whitespace. */
  predicate TrimmedAt(s: string, r: string, i: nat)
  {
    && i + |r| <= |s| && r == s[i..i + |r|]
    && (forall k :: 0 <= k < i ==> IsWhitespace(s[k]))
    && (forall k :: i + |r| <= k < |s| ==> IsWhitespace(s[k]))
  }

  /**
   * Trimming the end of what is left after trimming the start leaves a slice with whitespace all
   * around it, which starts and ends with non-whitespace.
   */
  lemma TrimmedAtParts(s: string, t: string, r: string)
    requires |t| <= |s| && t == s[|s| - |t|..]
    requires forall k :: 0 <= k < |s| - |t| ==> IsWhitespace(s[k])
    requires t == [] || !IsWhitespace(t[0])
    requires |r| <= |t| && r == t[..|r|]
    requires forall k :: |r| <= k < |t| ==> IsWhitespace(t[k])
    requires r == [] || !IsWhitespace(r[|r| - 1])
    ensures r == [] || (!IsWhitespace(r[0]) && !IsWhitespace(r[|r| - 1]))
    ensures exists i: nat :: TrimmedAt(s, r, i)
  {
    var i := |s| - |t|;
    forall k | i + |r| <= k < |s| ensures IsWhitespace(s[k]) {
      assert s[k] == t[k - i];
    }
    assert r != [] ==> r[0] == t[0];
    assert TrimmedAt(s, r, i);
  }

  /** `s.trim()`: the slice of `s` left after removing whitespace at both ends. */
  function Trim(s: string): (r: string)
    ensures r == [] || (!IsWhitespace(r[0]) && !IsWhitespace(r[|r| - 1]))
    ensures exists i: nat :: TrimmedAt(s, r, i)
  {
    var t := TrimStart(s);
    var r := TrimEnd(t);
    TrimmedAtParts(s, t, r);
    r
  }

  /** A string without whitespace at either end trims to itself. */
  lemma TrimUntouched(s: string)
    requires s == [] || (!IsWhitespace(s[0]) && !IsWhitespace(s[|s| - 1]))
    ensures Trim(s) == s
  {
  }

  /** Trimming twice is trimming once. */
  lemma TrimIdempotent(s: string)
    ensures Trim(Trim(s)) == Trim(s)
  {
    TrimUntouched(Trim(s));
  }

  // ---------------------------------------------------------------------------------------------
  // `generateChunks`

  /** `.filter((i) => i !== "")`: only the empty string is dropped, order is kept. */
  function NonEmpty(pieces: seq<string>): (r: seq<string>)
    ensures forall p :: p in r <==> p in pieces && p != ""
    ensures |r| <= |pieces|
    ensures (forall i :: 0 <= i < |pieces| ==> pieces[i] != "") ==> r == pieces
  {
    if pieces == [] then []
    else
      assert (forall i :: 0 <= i < |pieces| ==> pieces[i] != "") ==>
        forall i :: 0 <= i < |pieces[1..]| ==> pieces[1..][i] == pieces[i + 1] != "";
      (if pieces[0] != "" then [pieces[0]] else []) + NonEmpty(pieces[1..])
  }

  /** The filter distributes over concatenation, so the kept pieces stay in order, each kept once. */
  lemma {:induction false} NonEmptyConcat(a: seq<string>, b: seq<string>)
    ensures NonEmpty(a + b) == NonEmpty(a) + NonEmpty(b)
    decreases |a|
  {
    if a != [] {
      var head: seq<string> := if a[0] != "" then [a[0]] else [];
      assert (a + b)[0] == a[0] && (a + b)[1..] == a[1..] + b;
      NonEmptyConcat(a[1..], b);
      assert NonEmpty(a + b) == head + NonEmpty(a[1..] + b);
      assert NonEmpty(a) == head + NonEmpty(a[1..]);
    } else {
      assert a + b == b;
    }
  }

  /** `input.trim().split(".").filter((i) => i !== "")` */
  function GenerateChunks(input: string): (chunks: seq<string>)
    ensures forall c :: c in chunks ==> c != "" && '.' !in c
  {
    NonEmpty(Split(Trim(input), '.'))
  }

  /** Every character except the dots, in order. */
  function WithoutDots(s: string): (r: string)
    ensures '.' !in r
  {
    if s == [] then [] else (if s[0] == '.' then [] else [s[0]]) + WithoutDots(s[1..])
  }

  lemma {:induction false} WithoutDotsAppend(a: string, b: string)
    ensures WithoutDots(a + b) == WithoutDots(a) + WithoutDots(b)
    decreases |a|
  {
    if a != [] {
      assert (a + b)[0] == a[0] && (a + b)[1..] == a[1..] + b;
      WithoutDotsAppend(a[1..], b);
      calc {
        WithoutDots(a + b);
        (if a[0] == '.' then [] else [a[0]]) + WithoutDots(a[1..] + b);
        (if a[0] == '.' then [] else [a[0]]) + (WithoutDots(a[1..]) + WithoutDots(b));
        ((if a[0] == '.' then [] else [a[0]]) + WithoutDots(a[1..])) + WithoutDots(b);
      }
    } else {
      assert a + b == b;
    }
  }

  lemma {:induction false} WithoutDotsPlain(s: string)
    requires '.' !in s
    ensures WithoutDots(s) == s
    decreases |s|
  {
    if s != [] {
      assert s[0] != '.' && s == [s[0]] + s[1..];
      WithoutDotsPlain(s[1..]);
    }
  }

  /** Joining dot-free pieces with dots and dropping the dots again concatenates the pieces. */
  lemma {:induction false} WithoutDotsJoin(pieces: seq<string>)
    requires forall p :: p in pieces ==> '.' !in p
    ensures WithoutDots(Join(pieces, ".")) == Concat(pieces)
    decreases |pieces|
  {
    if |pieces| == 1 {
      assert pieces[0] in pieces;
      WithoutDotsPlain(pieces[0]);
      assert Concat(pieces) == pieces[0] + Concat([]);
    } else if |pieces| > 1 {
      assert pieces[0] in pieces;
      assert forall p :: p in pieces[1..] ==> p in pieces;
      WithoutDotsJoin(pieces[1..]);
      WithoutDotsAppend(pieces[0] + ".", Join(pieces[1..], "."));
      WithoutDotsAppend(pieces[0], ".");
      WithoutDotsPlain(pieces[0]);
    }
  }

  /** Dropping the empty pieces does not change their concatenation. */
  lemma {:induction false} ConcatNonEmpty(pieces: seq<string>)
    ensures Concat(NonEmpty(pieces)) == Concat(pieces)
    decreases |pieces|
  {
    if pieces != [] {
      ConcatNonEmpty(pieces[1..]);
      ConcatAppend(if pieces[0] != "" then [pieces[0]] else [], NonEmpty(pieces[1..]));
    }
  }

  lemma {:induction false} ConcatAppend(a: seq<string>, b: seq<string>)
    ensures Concat(a + b) == Concat(a) + Concat(b)
    decreases |a|
  {
    if a != [] {
      assert (a + b)[0] == a[0] && (a + b)[1..] == a[1..] + b;
      ConcatAppend(a[1..], b);
      calc {
        Concat(a + b);
        a[0] + Concat(a[1..] + b);
        a[0] + (Concat(a[1..]) + Concat(b));
        (a[0] + Concat(a[1..])) + Concat(b);
      }
    } else {
      assert a + b == b;
    }
  }

  /** Nothing is lost but the dots and the surrounding whitespace: the chunks concatenate to the trimmed input without its dots. */
  lemma ChunksCoverInput(input: string)
    ensures Concat(GenerateChunks(input)) == WithoutDots(Trim(input))
  {
    var pieces := Split(Trim(input), '.');
    ConcatNonEmpty(pieces);
    WithoutDotsJoin(pieces);
  }

  /** The last character of a join is that of its last part. */
  lemma {:induction false} JoinLast(parts: seq<string>, sep: string)
    requires |parts| >= 1 && parts[|parts| - 1] != []
    ensures var j := Join(parts, sep); j != [] && j[|j| - 1] == parts[|parts| - 1][|parts[|parts| - 1]| - 1]
    decreases |parts|
  {
    if |parts| > 1 {
      JoinLast(parts[1..], sep);
    }
  }

  /**
   * Sentences joined with dots come back as the same chunks, provided none is empty or holds a
   * dot and the text does not start or end with whitespace.
   */
  lemma ChunksRoundTrip(chunks: seq<string>)
    requires |chunks| >= 1
    requires forall i :: 0 <= i < |chunks| ==> chunks[i] != "" && '.' !in chunks[i]
    requires !IsWhitespace(chunks[0][0]) && !IsWhitespace(chunks[|chunks| - 1][|chunks[|chunks| - 1]| - 1])
    ensures GenerateChunks(Join(chunks, ".")) == chunks
  {
    JoinLast(chunks, ".");
    assert Join(chunks, ".")[0] == chunks[0][0];
    TrimUntouched(Join(chunks, "."));
    assert forall p :: p in chunks ==> p != "" && '.' !in p;
    SplitJoin(chunks, '.');
    NonEmptyKeeps(chunks);
  }

  lemma {:induction false} NonEmptyKeeps(pieces: seq<string>)
    requires forall p :: p in pieces ==> p != ""
    ensures NonEmpty(pieces) == pieces
    decreases |pieces|
  {
    if pieces != [] {
      assert pieces[0] in pieces;
      assert forall p :: p in pieces[1..] ==> p in pieces;
      NonEmptyKeeps(pieces[1..]);
    }
  }

  /** Only `""` is filtered: a segment led by a space is kept with its space. */
  lemma SpaceLedSegmentKept()
    ensures GenerateChunks("a. b") == ["a", " b"]
  {
    var chunks := ["a", " b"];
    assert Join(chunks, ".") == "a. b";
    assert !IsWhitespace('a') && !IsWhitespace('b');
    ChunksRoundTrip(chunks);
  }

  /** A segment made of spaces only is a chunk of its own. */
  lemma BlankSegmentKept()
    ensures GenerateChunks("a. .b") == ["a", " ", "b"]
  {
    var chunks := ["a", " ", "b"];
    assert Join(chunks, ".") == "a. .b";
    assert !IsWhitespace('a') && !IsWhitespace('b');
    ChunksRoundTrip(chunks);
  }

  // ---------------------------------------------------------------------------------------------
  // `embeddContent`, `generateEmbeddings`, `generateEmbeddingsFromChunks`

  type Embedding = seq<real>

  /** One output row; `content` is `chunks[index]`, which is undefined past the last chunk. */
  datatype EmbeddedChunk = EmbeddedChunk(content: Option<string>, embedding: Embedding)

  /** `embedMany`: the model's vectors for a list of values. */
  type EmbedManyModel = seq<string> -> seq<Embedding>

  /** `embed`: the model's vector for one value. */
  type EmbedModel = string -> Embedding

  function EmbeddingsOf(rows: seq<EmbeddedChunk>): (r: seq<Embedding>)
    ensures |r| == |rows|
    ensures forall i :: 0 <= i < |rows| ==> r[i] == rows[i].embedding
  {
    seq(|rows|, i requires 0 <= i < |rows| => rows[i].embedding)
  }

  /** `embeddings.map((embedding, index) => ({ content: chunks[index], embedding }))` */
  function Pair(chunks: seq<string>, embeddings: seq<Embedding>): (rows: seq<EmbeddedChunk>)
    ensures EmbeddingsOf(rows) == embeddings
    ensures forall i :: 0 <= i < |rows| && i < |chunks| ==> rows[i].content == Some(chunks[i])
    ensures forall i :: |chunks| <= i < |rows| ==> rows[i].content.None?
  {
    seq(|embeddings|, i requires 0 <= i < |embeddings| =>
      EmbeddedChunk(if i < |chunks| then Some(chunks[i]) else None, embeddings[i]))
  }

  /** With one vector per chunk, every row carries its chunk, in order: the chunks can be read back. */
  lemma PairRoundTrip(chunks: seq<string>, embeddings: seq<Embedding>)
    requires |embeddings| == |chunks|
    ensures var rows := Pair(chunks, embeddings);
      |rows| == |chunks| && forall i :: 0 <= i < |rows| ==> rows[i].content.Some? && rows[i].content.value == chunks[i]
  {
    assert |EmbeddingsOf(Pair(chunks, embeddings))| == |embeddings|;
  }

  /** `embeddContent`: one row per vector the model returns, each carrying the chunk at its index. */
  function EmbeddContent(model: EmbedManyModel, chunks: seq<string>): (rows: seq<EmbeddedChunk>)
    ensures EmbeddingsOf(rows) == model(chunks)
    ensures forall i :: 0 <= i < |rows| && i < |chunks| ==> rows[i].content == Some(chunks[i])
    ensures forall i :: |chunks| <= i < |rows| ==> rows[i].content.None?
  {
    Pair(chunks, model(chunks))
  }

  /** `generateEmbeddingsFromChunks`: the given contents are embedded as they are, without re-chunking. */
  function GenerateEmbeddingsFromChunks(model: EmbedManyModel, contents: seq<string>): (rows: seq<EmbeddedChunk>)
    ensures EmbeddingsOf(rows) == model(contents)
    ensures forall i :: 0 <= i < |rows| && i < |contents| ==> rows[i].content == Some(contents[i])
  {
    EmbeddContent(model, contents)
  }

  /** `generateEmbeddings`: the chunks of `value` are embedded, one row per vector, each with the chunk at its index. */
  function GenerateEmbeddings(model: EmbedManyModel, value: string): (rows: seq<EmbeddedChunk>)
    ensures EmbeddingsOf(rows) == model(GenerateChunks(value))
    ensures forall i :: 0 <= i < |rows| && i < |GenerateChunks(value)| ==> rows[i].content == Some(GenerateChunks(value)[i])
    ensures forall i :: |GenerateChunks(value)| <= i < |rows| ==> rows[i].content.None?
  {
    EmbeddContent(model, GenerateChunks(value))
  }

  /** `generateEmbeddings(v)` embeds exactly the chunks of `v`: one row per vector, the chunks in order. */
  lemma GenerateEmbeddingsRows(model: EmbedManyModel, value: string)
    ensures GenerateEmbeddings(model, value) == GenerateEmbeddingsFromChunks(model, GenerateChunks(value))
    ensures var rows := GenerateEmbeddings(model, value);
      forall i :: 0 <= i < |rows| && rows[i].content.Some? ==> rows[i].content.value != "" && '.' !in rows[i].content.value
  {
    var chunks := GenerateChunks(value);
    var rows := GenerateEmbeddings(model, value);
    forall i | 0 <= i < |rows| && rows[i].content.Some?
      ensures rows[i].content.value != "" && '.' !in rows[i].content.value
    {
      assert i < |chunks| && rows[i].content.value == chunks[i] && chunks[i] in chunks;
    }
  }

  // ---------------------------------------------------------------------------------------------
  // `generateEmbedding`

  /** The two-character sequence backslash, `n` occurs at no position. */
  predicate NoEscapedNewline(s: string)
  {
    forall i :: 0 <= i < |s| - 1 ==> !(s[i] == '\\' && s[i + 1] == 'n')
  }

  function CountChar(s: string, c: char): nat
  {
    if s == [] then 0 else (if s[0] == c then 1 else 0) + CountChar(s[1..], c)
  }

  /**
   * `value.replaceAll("\\n", " ")`: each backslash-`n` pair, scanned left to right, becomes a
   * space. Real line breaks are kept, and no pair survives.
   */
  function ReplaceEscapedNewlines(s: string): (r: string)
    ensures r == [] <==> s == []
    ensures r != [] ==> r[0] == ' ' || r[0] == s[0]
    ensures NoEscapedNewline(r)
    ensures CountChar(r, '\n') == CountChar(s, '\n')
    ensures NoEscapedNewline(s) ==> r == s
  {
    if |s| >= 2 && s[0] == '\\' && s[1] == 'n' then
      var rest := ReplaceEscapedNewlines(s[2..]);
      assert CountChar(s, '\n') == CountChar(s[2..], '\n') by {
        assert s[1..][1..] == s[2..];
      }
      " " + rest
    else if s == [] then []
    else
      var rest := ReplaceEscapedNewlines(s[1..]);
      assert NoEscapedNewline(s) ==> NoEscapedNewline(s[1..]) by {
        if NoEscapedNewline(s) {
          forall i | 0 <= i < |s[1..]| - 1 ensures !(s[1..][i] == '\\' && s[1..][i + 1] == 'n') {
            assert s[1..][i] == s[i + 1] && s[1..][i + 1] == s[i + 2];
          }
        }
      }
      var r := [s[0]] + rest;
      assert NoEscapedNewline(r) by {
        forall i | 0 <= i < |r| - 1 ensures !(r[i] == '\\' && r[i + 1] == 'n') {
          if i > 0 {
            assert r[i] == rest[i - 1] && r[i + 1] == rest[i];
          }
        }
      }
      r
  }

  /** A pair on its own becomes one space; any single character is kept. */
  lemma ReplaceEscapedNewlinesUnits(c: char)
    ensures ReplaceEscapedNewlines("\\n") == " "
    ensures ReplaceEscapedNewlines([c]) == [c]
  {
    assert "\\n"[2..] == [];
    assert [c][1..] == [];
  }

  /**
   * Replacing piecewise is replacing the whole, unless a pair straddles the cut: `a` ending in a
   * backslash and `b` starting with `n`. With `ReplaceEscapedNewlinesUnits` this fixes the result
   * for every input: each backslash-`n`, scanned left to right, is one space and every other
   * character, line breaks included, stays in place.
   */
  lemma {:induction false} ReplaceEscapedNewlinesAppend(a: string, b: string)
    requires !(a != [] && a[|a| - 1] == '\\' && b != [] && b[0] == 'n')
    ensures ReplaceEscapedNewlines(a + b) == ReplaceEscapedNewlines(a) + ReplaceEscapedNewlines(b)
    decreases |a|
  {
    if a == [] {
      assert a + b == b;
    } else if |a| >= 2 && a[0] == '\\' && a[1] == 'n' {
      assert (a + b)[0] == '\\' && (a + b)[1] == 'n' && (a + b)[2..] == a[2..] + b;
      ReplaceEscapedNewlinesAppend(a[2..], b);
    } else {
      assert (a + b)[0] == a[0] && (a + b)[1..] == a[1..] + b;
      if |a| == 1 {
        assert a[1..] == [];
        assert a[1..] + b == b;
      } else {
        assert (a + b)[1] == a[1];
        ReplaceEscapedNewlinesAppend(a[1..], b);
      }
    }
  }

  /** The vector of `value` with every backslash-`n` pair replaced by a space. */
  function GenerateEmbedding(model: EmbedModel, value: string): (e: Embedding)
    ensures e == model(ReplaceEscapedNewlines(value))
    ensures NoEscapedNewline(value) ==> e == model(value)
  {
    model(ReplaceEscapedNewlines(value))
  }

  /** A literal backslash-`n` and a space embed alike; a real line break is passed through. */
  lemma EscapedNewlineIsSpace(model: EmbedModel)
    ensures GenerateEmbedding(model, "a\\nb") == model("a b")
    ensures GenerateEmbedding(model, "a\nb") == model("a\nb")
  {
    var s := "a\\nb";
    assert s[1..] == "\\nb" && s[1..][2..] == "b";
    assert ReplaceEscapedNewlines("b") == "b";
    assert ReplaceEscapedNewlines(s[1..]) == " b";
    assert ReplaceEscapedNewlines(s) == "a b";
    assert NoEscapedNewline("a\nb");
  }
}
