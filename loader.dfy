/**
 * The loader of src/read.rs: a program text becomes a list of statements
 * (each a list of tokens) and a label table. The model starts from the
 * text already in memory; reading the file or standard input is not part
 * of it.
 */
module Loader {
  import opened Text

  /** `Vec::retain(|x| !x.is_empty())`: the non-empty pieces, in order. */
  function RetainNonEmpty(pieces: seq<string>): (kept: seq<string>)
    ensures |kept| <= |pieces|
    ensures forall i :: 0 <= i < |kept| ==> kept[i] != "" && kept[i] in pieces
  {
    if pieces == [] then []
    else (if pieces[0] == "" then [] else [pieces[0]]) + RetainNonEmpty(pieces[1..])
  }

  /** `map(|x| x.trim())` over the pieces. */
  function TrimEach(pieces: seq<string>): (trimmed: seq<string>)
    ensures |trimmed| == |pieces|
  {
    seq(|pieces|, i requires 0 <= i < |pieces| => Trim(pieces[i]))
  }

  /**
   * `Program::lines`: the text split on ',', the empty pieces dropped and
   * then every remaining piece trimmed. The drop comes before the trim, so
   * a piece made only of whitespace survives as the empty line "".
   */
  function Lines(raw: string): seq<string>
  {
    TrimEach(RetainNonEmpty(SplitOn(raw, ',')))
  }

  /** The tokens of one statement: `line.split(' ')`. */
  function Tokens(line: string): seq<string>
  {
    SplitOn(line, ' ')
  }

  /** `map(|x| x.split(' ').collect())` over the lines. */
  function TokenizeEach(lines: seq<string>): (thread: seq<seq<string>>)
    ensures |thread| == |lines|
    ensures forall i :: 0 <= i < |thread| ==> |thread[i]| >= 1
    ensures forall i, j :: 0 <= i < |thread| && 0 <= j < |thread[i]| ==> ' ' !in thread[i][j]
    ensures forall i :: 0 <= i < |thread| ==> Join(thread[i], ' ') == lines[i]
  {
    seq(|lines|, i requires 0 <= i < |lines| => Tokens(lines[i]))
  }

  /** `Program::split`: every line of the text split into its tokens. */
  function Statements(raw: string): seq<seq<string>>
  {
    TokenizeEach(Lines(raw))
  }

  /** Every statement has a first token, so the label loop may read `thread[i][0]`. */
  predicate HasHeads(thread: seq<seq<string>>) {
    forall i :: 0 <= i < |thread| ==> |thread[i]| >= 1
  }

  /**
   * The label table that `get`/`geti` build: one entry (first token,
   * 1-based position) for every statement whose first token contains ':',
   * in the order of the statements.
   */
  function LabelTable(thread: seq<seq<string>>): (table: seq<(string, nat)>)
    requires HasHeads(thread)
    ensures forall k :: 0 <= k < |table| ==>
              1 <= table[k].1 <= |thread| && table[k].0 == thread[table[k].1 - 1][0] && ':' in table[k].0
    ensures forall k, l :: 0 <= k < l < |table| ==> table[k].1 < table[l].1
  {
    if thread == [] then []
    else
      var last := thread[|thread| - 1];
      LabelTable(thread[..|thread| - 1]) + (if ':' in last[0] then [(last[0], |thread|)] else [])
  }

  /** Every label statement has its entry in the table. */
  lemma {:induction false} LabelTableComplete(thread: seq<seq<string>>, i: nat)
    requires HasHeads(thread)
    requires i < |thread| && ':' in thread[i][0]
    ensures (thread[i][0], i + 1) in LabelTable(thread)
  {
    if i < |thread| - 1 {
      var init := thread[..|thread| - 1];
      assert init[i] == thread[i];
      LabelTableComplete(init, i);
    }
  }

  /** The first `i + 1` statements extend the table of the first `i` by statement `i`'s entry, if any. */
  lemma LabelTablePrefix(thread: seq<seq<string>>, i: nat)
    requires HasHeads(thread) && i < |thread|
    ensures LabelTable(thread[..i + 1]) ==
            LabelTable(thread[..i]) + (if ':' in thread[i][0] then [(thread[i][0], i + 1)] else [])
  {
    assert thread[..i + 1][..i] == thread[..i];
  }

  /** Dropping empty pieces distributes over concatenation. */
  lemma {:induction false} RetainConcat(a: seq<string>, b: seq<string>)
    ensures RetainNonEmpty(a + b) == RetainNonEmpty(a) + RetainNonEmpty(b)
  {
    if a != [] {
      assert (a + b)[1..] == a[1..] + b;
      RetainConcat(a[1..], b);
    } else {
      assert a + b == b;
    }
  }

  /** Pieces that are all non-empty are all kept. */
  lemma {:induction false} RetainAllNonEmpty(a: seq<string>)
    requires forall i :: 0 <= i < |a| ==> a[i] != ""
    ensures RetainNonEmpty(a) == a
  {
    if a != [] {
      RetainAllNonEmpty(a[1..]);
    }
  }

  /** The lines of text joined at a comma are the lines of each part. */
  lemma LinesConcat(u: string, v: string)
    ensures Lines(u + [','] + v) == Lines(u) + Lines(v)
  {
    SplitOnConcat(u, ',', v);
    RetainConcat(SplitOn(u, ','), SplitOn(v, ','));
    TrimEachConcat(RetainNonEmpty(SplitOn(u, ',')), RetainNonEmpty(SplitOn(v, ',')));
  }

  /** Trimming distributes over concatenation of pieces. */
  lemma TrimEachConcat(a: seq<string>, b: seq<string>)
    ensures TrimEach(a + b) == TrimEach(a) + TrimEach(b)
  {
  }

  /** A non-empty piece made only of whitespace is kept, as the empty line. */
  lemma LinesBlank(w: string)
    requires w != [] && AllWhitespace(w) && ',' !in w
    ensures Lines(w) == [""]
  {
    SplitOnNoSeparator(w, ',');
    assert RetainNonEmpty([w]) == [w];
    TrimEmpty(w);
  }

  /** The empty text has no lines. */
  lemma LinesEmpty()
    ensures Lines("") == []
  {
    assert SplitOn("", ',') == [""];
  }

  /** Tokenizing distributes over concatenation of lines. */
  lemma TokenizeConcat(a: seq<string>, b: seq<string>)
    ensures TokenizeEach(a + b) == TokenizeEach(a) + TokenizeEach(b)
  {
  }

  /**
   * A blank statement between two commas survives tokenizing as the
   * one-token statement [""].
   */
  lemma BlankStatement(u: string, w: string, v: string)
    requires w != [] && AllWhitespace(w) && ',' !in w
    ensures Statements(u + [','] + w + [','] + v) == Statements(u) + [[""]] + Statements(v)
  {
    var a, b := Lines(u), Lines(v);
    LinesConcat(u + [','] + w, v);
    LinesConcat(u, w);
    LinesBlank(w);
    assert Lines(u + [','] + w + [','] + v) == a + [""] + b;
    TokenizeConcat(a + [""], b);
    TokenizeConcat(a, [""]);
    assert TokenizeEach([""]) == [[""]] by {
      assert Tokens("") == [""];
    }
  }

  /** Lines that are non-empty, trimmed and comma-free come back from their comma-joined text. */
  lemma LinesJoin(lines: seq<string>)
    requires forall i :: 0 <= i < |lines| ==> lines[i] != "" && IsTrimmed(lines[i]) && ',' !in lines[i]
    ensures Lines(Join(lines, ',')) == lines
  {
    if lines == [] {
      LinesEmpty();
    } else {
      SplitOnJoin(lines, ',');
      RetainAllNonEmpty(lines);
      forall i | 0 <= i < |lines|
        ensures Trim(lines[i]) == lines[i]
      {
        TrimTrimmed(lines[i]);
      }
    }
  }

  /**
   * Every line of the loaded text is trimmed and holds no comma, so the
   * text a line came from can be rebuilt by joining the lines with ','.
   */
  lemma LinesShape(raw: string)
    ensures forall i :: 0 <= i < |Lines(raw)| ==> IsTrimmed(Lines(raw)[i]) && ',' !in Lines(raw)[i]
  {
    var kept := RetainNonEmpty(SplitOn(raw, ','));
    forall i | 0 <= i < |kept|
      ensures ',' !in Trim(kept[i])
    {
      var lead, trail := TrimSplit(kept[i]);
    }
  }

  /**
   * A statement is written one way only: a token list with no space,
   * comma or whitespace inside a token and no empty token is what the
   * tokenizer gives back from its space-joined line.
   */
  predicate WellFormedStatement(stmt: seq<string>) {
    && |stmt| >= 1
    && forall j :: 0 <= j < |stmt| ==> stmt[j] != "" && ',' !in stmt[j] && forall k :: 0 <= k < |stmt[j]| ==> !IsWhitespace(stmt[j][k])
  }

  /** The first and last characters of a join are those of the first and last piece. */
  lemma {:induction false} JoinEnds(pieces: seq<string>, c: char)
    requires |pieces| >= 1 && forall j :: 0 <= j < |pieces| ==> pieces[j] != []
    ensures Join(pieces, c) != []
    ensures Join(pieces, c)[0] == pieces[0][0]
    ensures Join(pieces, c)[|Join(pieces, c)| - 1] == pieces[|pieces| - 1][|pieces[|pieces| - 1]| - 1]
  {
    if |pieces| > 1 {
      JoinEnds(pieces[1..], c);
    }
  }

  /** A character is in a join only if it is the separator or in one of the pieces. */
  lemma {:induction false} JoinChars(pieces: seq<string>, c: char, x: char)
    requires x != c && forall j :: 0 <= j < |pieces| ==> x !in pieces[j]
    ensures x !in Join(pieces, c)
  {
    if |pieces| > 1 {
      JoinChars(pieces[1..], c, x);
    }
  }

  /** The program text that a list of statements is written as. */
  function Source(thread: seq<seq<string>>): string {
    Join(seq(|thread|, i requires 0 <= i < |thread| => Join(thread[i], ' ')), ',')
  }

  /** Loading the text of well-formed statements gives the statements back. */
  lemma LoadSource(thread: seq<seq<string>>)
    requires forall i :: 0 <= i < |thread| ==> WellFormedStatement(thread[i])
    ensures Statements(Source(thread)) == thread
  {
    var lines := seq(|thread|, i requires 0 <= i < |thread| => Join(thread[i], ' '));
    forall i | 0 <= i < |lines|
      ensures lines[i] != "" && IsTrimmed(lines[i]) && ',' !in lines[i]
      ensures Tokens(lines[i]) == thread[i]
    {
      var stmt := thread[i];
      JoinEnds(stmt, ' ');
      JoinChars(stmt, ' ', ',');
      assert forall j :: 0 <= j < |stmt| ==> ' ' !in stmt[j] by {
        forall j | 0 <= j < |stmt| ensures ' ' !in stmt[j] {
          assert forall k :: 0 <= k < |stmt[j]| ==> stmt[j][k] != ' ';
        }
      }
      SplitOnJoin(stmt, ' ');
    }
    LinesJoin(lines);
  }

  /**
   * The loaded program of src/read.rs: the statements, their number and
   * the label table, plus the trimmed text they came from.
   */
  class Program {
    var functions: seq<(string, nat)>
    var rawThread: string
    var thread: seq<seq<string>>
    var threadLen: nat

    ghost predicate Valid()
      reads this
    {
      threadLen == |thread| && HasHeads(thread)
    }

    /** `Program::default` (also `Program::new`): no statements, no labels, raw text "exit". */
    constructor ()
      ensures Valid()
      ensures rawThread == "exit" && functions == [] && thread == [] && threadLen == 0
    {
      rawThread := "exit";
      functions := [];
      thread := [];
      threadLen := 0;
    }

    /** `Program::split`: tokenize the raw text into the statement list. */
    method Split()
      modifies this`thread, this`threadLen
      ensures Valid()
      ensures thread == Statements(rawThread) && threadLen == |thread|
    {
      var v := Lines(rawThread);
      var out := TokenizeEach(v);
      threadLen := |out|;
      thread := out;
    }

    /** The loop of `get`/`geti` that appends one label entry per label statement. */
    method RecordLabels()
      requires Valid()
      modifies this`functions
      ensures functions == old(functions) + LabelTable(thread)
    {
      for i := 0 to threadLen
        invariant functions == old(functions) + LabelTable(thread[..i])
      {
        var s := thread[i][0];
        LabelTablePrefix(thread, i);
        if ':' in s {
          functions := functions + [(s, i + 1)];
        }
      }
      assert thread[..threadLen] == thread;
    }

    /** `Program::get`, from the text of the script file once it has been read. */
    method Get(contents: string)
      modifies this
      ensures Valid()
      ensures rawThread == Trim(contents)
      ensures thread == Statements(rawThread) && threadLen == |thread|
      ensures functions == old(functions) + LabelTable(thread)
    {
      rawThread := Trim(contents);
      Split();
      threadLen := |thread|;
      RecordLabels();
    }

    /** `Program::geti`, from the text read from standard input. */
    method GetI(input: string)
      modifies this
      ensures Valid()
      ensures rawThread == Trim(input)
      ensures thread == Statements(rawThread) && threadLen == |thread|
      ensures functions == old(functions) + LabelTable(thread)
    {
      rawThread := Trim(input);
      Split();
      threadLen := |thread|;
      RecordLabels();
    }
  }

  /** `get` and `geti` on fresh programs and the same text load the same program. */
  method GetAgreesWithGetI(text: string) returns (viaFile: Program, viaStdin: Program)
    ensures viaFile.Valid() && viaStdin.Valid()
    ensures viaFile.thread == viaStdin.thread && viaFile.threadLen == viaStdin.threadLen
    ensures viaFile.functions == viaStdin.functions == LabelTable(viaFile.thread)
    ensures viaFile.rawThread == viaStdin.rawThread == Trim(text)
  {
    viaFile := new Program();
    viaFile.Get(text);
    viaStdin := new Program();
    viaStdin.GetI(text);
  }
}
