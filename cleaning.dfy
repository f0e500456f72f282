/** Sample text cleaning of the signal-processing functions: the payloads are
    rendered with Python's `str(...)`, every character that is not a digit,
    a dot or whitespace is deleted (`re.sub(r'[^\d.\s]', '', text)`), and
    the rest is split on runs of whitespace (`text.split()`); each token is
    then handed to `float`. */
module Cleaning {
  import opened Options
  import opened Frames

  predicate IsDigit(c: char) {
    '0' <= c <= '9'
  }

  /** ASCII whitespace as both `\s` and `str.split()` see it: space, tab,
      line feed, vertical tab, form feed, carriage return, and the four
      separator controls 0x1C-0x1F. */
  predicate IsSpace(c: char) {
    c == ' ' || '\U{9}' <= c <= '\U{D}' || '\U{1C}' <= c <= '\U{1F}'
  }

  /** The characters the character class `[\d.\s]` keeps. */
  predicate Kept(c: char) {
    IsDigit(c) || c == '.' || IsSpace(c)
  }

  /** `re.sub(r'[^\d.\s]', '', text)` */
  function Clean(text: string): (r: string)
    ensures |r| <= |text|
  {
    if text == [] then []
    else (if Kept(text[0]) then [text[0]] else []) + Clean(text[1..])
  }

  /** The cleaned text holds only kept characters, and every kept
      character of the text survives. */
  lemma {:induction false} CleanSound(text: string)
    ensures forall i :: 0 <= i < |Clean(text)| ==> Kept(Clean(text)[i])
    ensures forall i :: 0 <= i < |text| && Kept(text[i]) ==> text[i] in Clean(text)
  {
    if text != [] {
      CleanSound(text[1..]);
      forall i | 0 <= i < |text| && Kept(text[i]) ensures text[i] in Clean(text) {
        if i > 0 { assert text[i] == text[1..][i - 1]; }
      }
    }
  }

  /** Cleaning works character by character: it distributes over
      concatenation. */
  lemma {:induction false} CleanAppend(a: string, b: string)
    ensures Clean(a + b) == Clean(a) + Clean(b)
  {
    if a == [] {
      assert a + b == b;
    } else {
      var head := if Kept(a[0]) then [a[0]] else [];
      assert (a + b)[0] == a[0];
      assert (a + b)[1..] == a[1..] + b;
      CleanAppend(a[1..], b);
      assert Clean(a + b) == head + Clean(a[1..] + b);
    }
  }

  /** Text made only of kept characters comes through unchanged; in
      particular cleaning twice is cleaning once. */
  lemma {:induction false} CleanKeepsKept(text: string)
    requires forall i :: 0 <= i < |text| ==> Kept(text[i])
    ensures Clean(text) == text
  {
    if text != [] {
      CleanKeepsKept(text[1..]);
    }
  }

  lemma CleanIdempotent(text: string)
    ensures Clean(Clean(text)) == Clean(text)
  {
    CleanSound(text);
    CleanKeepsKept(Clean(text));
  }

  /** A token: non-empty and free of whitespace. */
  predicate IsToken(t: string) {
    t != [] && forall i :: 0 <= i < |t| ==> !IsSpace(t[i])
  }

  /** The leading run of non-whitespace characters. */
  function Word(s: string): (w: string)
    ensures |w| <= |s| && w == s[..|w|]
    ensures forall i :: 0 <= i < |w| ==> !IsSpace(w[i])
    ensures |w| < |s| ==> IsSpace(s[|w|])
  {
    if s == [] || IsSpace(s[0]) then [] else [s[0]] + Word(s[1..])
  }

  /** `text.split()`: the maximal runs of non-whitespace, in order. */
  function Split(s: string): (ts: seq<string>)
    ensures |ts| <= |s|
    decreases |s|
  {
    if s == [] then []
    else if IsSpace(s[0]) then Split(s[1..])
    else
      var w := Word(s);
      [w] + Split(s[|w|..])
  }

  /** Every token is non-empty, free of whitespace and made of characters
      of the input. */
  lemma {:induction false} SplitSound(s: string)
    ensures forall k :: 0 <= k < |Split(s)| ==> IsToken(Split(s)[k])
    ensures forall k, i :: 0 <= k < |Split(s)| && 0 <= i < |Split(s)[k]| ==> Split(s)[k][i] in s
    decreases |s|
  {
    if s == [] {
    } else if IsSpace(s[0]) {
      SplitSound(s[1..]);
      InTail(s);
    } else {
      var w := Word(s);
      SplitSound(s[|w|..]);
      var ts := Split(s);
      assert ts == [w] + Split(s[|w|..]);
      forall k, i | 0 <= k < |ts| && 0 <= i < |ts[k]| ensures ts[k][i] in s {
        if k == 0 {
          assert ts[k][i] == s[i];
        } else {
          assert ts[k] == Split(s[|w|..])[k - 1];
          InSuffix(s, |w|);
        }
      }
    }
  }

  lemma InTail(s: string)
    requires s != []
    ensures forall c :: c in s[1..] ==> c in s
  {
  }

  lemma InSuffix(s: string, n: nat)
    requires n <= |s|
    ensures forall c :: c in s[n..] ==> c in s
  {
  }

  /** After cleaning, every token holds only digits and dots: a minus sign,
      an exponent letter or any other character of the rendering is gone. */
  lemma CleanedTokens(text: string)
    ensures forall k, i :: 0 <= k < |Split(Clean(text))| && 0 <= i < |Split(Clean(text))[k]| ==>
      IsDigit(Split(Clean(text))[k][i]) || Split(Clean(text))[k][i] == '.'
    ensures forall k :: 0 <= k < |Split(Clean(text))| ==> '-' !in Split(Clean(text))[k]
  {
    var ts := Split(Clean(text));
    SplitSound(Clean(text));
    CleanSound(text);
    forall k, i | 0 <= k < |ts| && 0 <= i < |ts[k]|
      ensures IsDigit(ts[k][i]) || ts[k][i] == '.'
    {
      var c := ts[k][i];
      assert c in Clean(text);
      assert !IsSpace(c);
    }
  }

  /** A word stops at the first whitespace character. */
  lemma {:induction false} WordStopsAtSpace(a: string, b: string)
    requires b != [] && IsSpace(b[0])
    ensures Word(a + b) == Word(a)
  {
    if a != [] && !IsSpace(a[0]) {
      assert (a + b)[1..] == a[1..] + b;
      WordStopsAtSpace(a[1..], b);
    }
  }

  /** Splitting two texts joined by a space is splitting each of them. */
  lemma {:induction false} SplitAtSpace(a: string, b: string)
    ensures Split(a + " " + b) == Split(a) + Split(b)
    decreases |a|
  {
    var s := a + " " + b;
    if a == [] {
      assert s[1..] == b;
    } else if IsSpace(a[0]) {
      assert s[1..] == a[1..] + " " + b;
      SplitAtSpace(a[1..], b);
    } else {
      WordStopsAtSpace(a, " " + b);
      assert s == a + (" " + b);
      var w := Word(a);
      assert s[|w|..] == a[|w|..] + " " + b;
      SplitAtSpace(a[|w|..], b);
    }
  }

  /** Python's `str(list)` of items whose own renderings are given:
      `[i0, i1, ...]`. */
  function PyList(items: seq<string>): string {
    "[" + CommaJoin(items) + "]"
  }

  function CommaJoin(items: seq<string>): string {
    if items == [] then ""
    else if |items| == 1 then items[0]
    else items[0] + ", " + CommaJoin(items[1..])
  }

  /** The tokens of each item's cleaned rendering, one item after another. */
  function TokensOfEach(items: seq<string>): (ts: seq<string>)
    ensures forall k :: 0 <= k < |ts| ==> IsToken(ts[k])
  {
    if items == [] then []
    else
      SplitSound(Clean(items[0]));
      Split(Clean(items[0])) + TokensOfEach(items[1..])
  }

  /** Cleaning and splitting a rendered list yields the tokens of its items
      in item order: brackets and commas disappear, and the ", " separator
      leaves a space that keeps neighbouring items apart. */
  lemma {:induction false} ListTokens(items: seq<string>)
    ensures Split(Clean(PyList(items))) == TokensOfEach(items)
  {
    CleanAppend("[" + CommaJoin(items), "]");
    CleanAppend("[", CommaJoin(items));
    assert Clean("[") == [] && Clean("]") == [];
    assert Clean(PyList(items)) == Clean(CommaJoin(items));
    JoinTokens(items);
  }

  lemma {:induction false} JoinTokens(items: seq<string>)
    ensures Split(Clean(CommaJoin(items))) == TokensOfEach(items)
  {
    if items == [] {
    } else if |items| == 1 {
      assert items[1..] == [];
    } else {
      var rest := CommaJoin(items[1..]);
      CleanAppend(items[0] + ", ", rest);
      CleanAppend(items[0], ", ");
      assert Clean(", ") == " ";
      SplitAtSpace(Clean(items[0]), Clean(rest));
      JoinTokens(items[1..]);
    }
  }

  /** `str([ecgdata for ...])` renders a list of sample lists. */
  function RenderRows(rows: seq<seq<string>>): seq<string> {
    if rows == [] then [] else [PyList(rows[0])] + RenderRows(rows[1..])
  }

  /** The tokens of every sample of every row, row after row. */
  function TokensOfRows(rows: seq<seq<string>>): seq<string> {
    if rows == [] then [] else TokensOfEach(rows[0]) + TokensOfRows(rows[1..])
  }

  /** Cleaning and splitting the rendering of a batch of ECG frames
      concatenates the frames' samples in frame order: nothing of the
      nesting survives. */
  lemma NestedListTokens(rows: seq<seq<string>>)
    ensures Split(Clean(PyList(RenderRows(rows)))) == TokensOfRows(rows)
  {
    ListTokens(RenderRows(rows));
    RowsTokens(rows);
  }

  lemma {:induction false} RowsTokens(rows: seq<seq<string>>)
    ensures TokensOfEach(RenderRows(rows)) == TokensOfRows(rows)
  {
    if rows != [] {
      ListTokens(rows[0]);
      RowsTokens(rows[1..]);
    }
  }

  /** A number rendered without whitespace keeps exactly its digits and dots
      as one token, so a negative value loses its sign (`-0.5` becomes
      `0.5`), provided some digit or dot remains. */
  lemma NumberToken(item: string)
    requires forall i :: 0 <= i < |item| ==> !IsSpace(item[i])
    requires Clean(item) != []
    ensures Split(Clean(item)) == [Clean(item)]
  {
    var c := Clean(item);
    NoSpaceSurvives(item);
    assert !IsSpace(c[0]);
    WordWhole(c);
    assert c[|c|..] == [];
    assert Split(c) == [c] + Split(c[|c|..]);
  }

  lemma {:induction false} NoSpaceSurvives(item: string)
    requires forall i :: 0 <= i < |item| ==> !IsSpace(item[i])
    ensures forall i :: 0 <= i < |Clean(item)| ==> !IsSpace(Clean(item)[i])
  {
    if item != [] {
      NoSpaceSurvives(item[1..]);
    }
  }

  lemma {:induction false} WordWhole(s: string)
    requires forall i :: 0 <= i < |s| ==> !IsSpace(s[i])
    ensures Word(s) == s
  {
    if s != [] {
      WordWhole(s[1..]);
    }
  }

  /** `[rrdata[0] for label, timestamp, rrdata, none in data]`: the first
      payload element of every HR frame, in frame order; `None` stands for
      the IndexError an empty payload raises. */
  function FirstOfPayloads(frames: seq<Frame>): (o: Option<seq<real>>)
    ensures o.Some? <==> forall k :: 0 <= k < |frames| ==> |frames[k].payload| > 0
    ensures o.Some? ==> |o.value| == |frames|
    ensures o.Some? ==> forall k :: 0 <= k < |frames| ==> o.value[k] == frames[k].payload[0]
  {
    if frames == [] then Some([])
    else if |frames[0].payload| == 0 then None
    else
      match FirstOfPayloads(frames[1..])
      case None => None
      case Some(rest) => Some([frames[0].payload[0]] + rest)
  }
}
