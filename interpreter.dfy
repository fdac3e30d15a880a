/**
 * Interpretation of one lower-cased, tokenized utterance: token filtering,
 * the commodity it names, and the intent picked by the `if/elif` chain.
 * The tokenizer and the English stop-word list are inputs.
 */
module Interpreter {
  import opened Wrappers
  import opened Text
  import opened Prices

  /** `[x for x in xs if keep(x)]` */
  function Filter<T>(keep: T -> bool, xs: seq<T>): seq<T> {
    if xs == [] then [] else (if keep(xs[0]) then [xs[0]] else []) + Filter(keep, xs[1..])
  }

  /** `xs` is what remains of `ys` after deleting some of its elements. */
  predicate IsSubsequence<T(==)>(xs: seq<T>, ys: seq<T>)
    decreases |ys|
  {
    xs == [] ||
    (ys != [] && ((xs[0] == ys[0] && IsSubsequence(xs[1..], ys[1..])) || IsSubsequence(xs, ys[1..])))
  }

  lemma {:induction false} SubsequenceTransitive<T>(a: seq<T>, b: seq<T>, c: seq<T>)
    requires IsSubsequence(a, b) && IsSubsequence(b, c)
    ensures IsSubsequence(a, c)
    decreases |c|
  {
    if a != [] && c != [] {
      if IsSubsequence(b, c[1..]) {
        SubsequenceTransitive(a, b, c[1..]);
      } else {
        assert b[0] == c[0] && IsSubsequence(b[1..], c[1..]);
        if a[0] == b[0] && IsSubsequence(a[1..], b[1..]) {
          SubsequenceTransitive(a[1..], b[1..], c[1..]);
        } else {
          SubsequenceTransitive(a, b[1..], c[1..]);
        }
      }
    }
  }

  /** A filter keeps its elements in order, and keeps exactly the elements that pass. */
  lemma {:induction false} FilterShape<T>(keep: T -> bool, xs: seq<T>)
    ensures IsSubsequence(Filter(keep, xs), xs)
    ensures forall x :: x in Filter(keep, xs) <==> x in xs && keep(x)
  {
    if xs != [] {
      var rest := Filter(keep, xs[1..]);
      FilterShape(keep, xs[1..]);
      assert xs == [xs[0]] + xs[1..];
      var r := Filter(keep, xs);
      if keep(xs[0]) {
        assert r[0] == xs[0] && r[1..] == rest;
      } else {
        assert r == rest;
      }
    }
  }

  /** A filter keeps every copy of an element that passes and no copy of one that does not. */
  lemma {:induction false} FilterCounts<T>(keep: T -> bool, xs: seq<T>)
    ensures forall x :: multiset(Filter(keep, xs))[x] == if keep(x) then multiset(xs)[x] else 0
  {
    if xs != [] {
      FilterCounts(keep, xs[1..]);
      assert xs == [xs[0]] + xs[1..];
      assert multiset(xs) == multiset([xs[0]]) + multiset(xs[1..]);
    }
  }

  /**
   * first.py keeps the alphanumeric tokens, then drops the stop words, each
   * by its own list comprehension.
   */
  function FilterTokens(tokens: seq<string>, stopWords: set<string>): seq<string> {
    Filter(NotStopWord(stopWords), Filter(IsAlnum, tokens))
  }

  function NotStopWord(stopWords: set<string>): string -> bool {
    w => w !in stopWords
  }

  /**
   * The filtered tokens are an order-preserving subsequence of the tokens,
   * and a token is among them exactly when it is alphanumeric and not a
   * stop word.
   */
  lemma {:induction false} FilteredTokensShape(tokens: seq<string>, stopWords: set<string>)
    ensures IsSubsequence(FilterTokens(tokens, stopWords), tokens)
    ensures forall w :: w in FilterTokens(tokens, stopWords) <==> w in tokens && IsAlnum(w) && w !in stopWords
  {
    var words := Filter(IsAlnum, tokens);
    FilterShape(IsAlnum, tokens);
    FilterShape(NotStopWord(stopWords), words);
    SubsequenceTransitive(FilterTokens(tokens, stopWords), words, tokens);
  }

  /** A token that passes both filters is kept as many times as it occurs; any other token not at all. */
  lemma {:induction false} FilteredTokenCounts(tokens: seq<string>, stopWords: set<string>)
    ensures forall w :: multiset(FilterTokens(tokens, stopWords))[w] ==
                        if IsAlnum(w) && w !in stopWords then multiset(tokens)[w] else 0
  {
    FilterCounts(IsAlnum, tokens);
    FilterCounts(NotStopWord(stopWords), Filter(IsAlnum, tokens));
  }

  /** `word.capitalize() in columns or word.upper() in columns` */
  predicate NamesColumn(w: string, columns: set<Commodity>) {
    Capitalize(w) in columns || Upper(w) in columns
  }

  /**
   * `next((w.capitalize() for w in words if ...), None)`: the capitalized
   * form of the first word that names a column, or none when no word does.
   */
  function FirstCommodity(words: seq<string>, columns: set<Commodity>): Option<Commodity> {
    if words == [] then None
    else if NamesColumn(words[0], columns) then Some(Capitalize(words[0]))
    else FirstCommodity(words[1..], columns)
  }

  /**
   * The entity is none exactly when no word names a column; otherwise it
   * is the capitalized form of a word that names one, with no such word
   * before it.
   */
  lemma {:induction false} FirstCommodityIsFirstMatch(words: seq<string>, columns: set<Commodity>)
    ensures var r := FirstCommodity(words, columns);
      (r.None? <==> forall i :: 0 <= i < |words| ==> !NamesColumn(words[i], columns)) &&
      (r.Some? ==>
        exists i :: 0 <= i < |words| && NamesColumn(words[i], columns) && r.value == Capitalize(words[i]) &&
                    forall j :: 0 <= j < i ==> !NamesColumn(words[j], columns))
  {
    if words != [] && !NamesColumn(words[0], columns) {
      FirstCommodityIsFirstMatch(words[1..], columns);
      assert forall i :: 1 <= i < |words| ==> words[i] == words[1..][i - 1];
      var r := FirstCommodity(words, columns);
      if r.Some? {
        var i :| 0 <= i < |words| - 1 && NamesColumn(words[1..][i], columns) && r.value == Capitalize(words[1..][i]) &&
                 forall j :: 0 <= j < i ==> !NamesColumn(words[1..][j], columns);
        assert NamesColumn(words[i + 1], columns) && r.value == Capitalize(words[i + 1]);
        assert forall j :: 0 <= j < i + 1 ==> !NamesColumn(words[j], columns) by {
          forall j | 0 <= j < i + 1 ensures !NamesColumn(words[j], columns) {
            if j > 0 { assert words[j] == words[1..][j - 1]; }
          }
        }
      }
    }
  }

  /** Words after the first one that names a column do not change the entity. */
  lemma {:induction false} LaterWordsIgnored(words: seq<string>, more: seq<string>, columns: set<Commodity>)
    requires FirstCommodity(words, columns).Some?
    ensures FirstCommodity(words + more, columns) == FirstCommodity(words, columns)
  {
    if !NamesColumn(words[0], columns) {
      LaterWordsIgnored(words[1..], more, columns);
      assert (words + more)[1..] == words[1..] + more;
    }
  }

  /**
   * When every column name is in capitalized form, the entity is always a
   * column, even when it was matched through `word.upper()`.
   */
  lemma {:induction false} EntityIsColumn(words: seq<string>, columns: set<Commodity>)
    requires forall c :: c in columns ==> Capitalize(c) == c
    ensures FirstCommodity(words, columns).Some? ==> FirstCommodity(words, columns).value in columns
  {
    if words != [] {
      if NamesColumn(words[0], columns) {
        if Capitalize(words[0]) !in columns {
          CapitalizeMatchesUpper(words[0]);
        }
      } else {
        EntityIsColumn(words[1..], columns);
      }
    }
  }

  /** The query intents, Exit excepted: the exit test happens before interpretation. */
  datatype Intent = Greeting | CurrentPrice | Predict | HedgeOrSpeculate | History | Help | Unknown

  /** The `if/elif` chain of first.py, tested top to bottom, first match wins. */
  function Classify(words: seq<string>): Intent {
    if "hello" in words || "hi" in words || "hey" in words then Greeting
    else if "price" in words || "prices" in words then CurrentPrice
    else if "predict" in words || "predictions" in words then Predict
    else if "hedge" in words || "speculate" in words then HedgeOrSpeculate
    else if "history" in words || "historical" in words then History
    else if "help" in words then Help
    else Unknown
  }

  /** The intents in priority order, each paired below with its keywords. */
  const Priority: seq<Intent> := [Greeting, CurrentPrice, Predict, HedgeOrSpeculate, History, Help]

  function Keywords(intent: Intent): set<string> {
    match intent
    case Greeting => {"hello", "hi", "hey"}
    case CurrentPrice => {"price", "prices"}
    case Predict => {"predict", "predictions"}
    case HedgeOrSpeculate => {"hedge", "speculate"}
    case History => {"history", "historical"}
    case Help => {"help"}
    case Unknown => {}
  }

  predicate Mentions(words: seq<string>, intent: Intent) {
    exists w :: w in Keywords(intent) && w in words
  }

  lemma MentionsByKeyword(words: seq<string>)
    ensures Mentions(words, Greeting) <==> "hello" in words || "hi" in words || "hey" in words
    ensures Mentions(words, CurrentPrice) <==> "price" in words || "prices" in words
    ensures Mentions(words, Predict) <==> "predict" in words || "predictions" in words
    ensures Mentions(words, HedgeOrSpeculate) <==> "hedge" in words || "speculate" in words
    ensures Mentions(words, History) <==> "history" in words || "historical" in words
    ensures Mentions(words, Help) <==> "help" in words
    ensures !Mentions(words, Unknown)
  {
  }

  /**
   * The chain is the priority table read first-match-wins: the words get the
   * intent at position `k` exactly when they mention one of its keywords
   * and none of the keywords of the intents before it.
   */
  lemma {:induction false} ClassifyFollowsPriority(words: seq<string>, k: nat)
    requires k < |Priority|
    ensures Classify(words) == Priority[k] <==>
      Mentions(words, Priority[k]) && forall j :: 0 <= j < k ==> !Mentions(words, Priority[j])
  {
    MentionsByKeyword(words);
    assert Priority[0] == Greeting && Priority[1] == CurrentPrice && Priority[2] == Predict;
    assert Priority[3] == HedgeOrSpeculate && Priority[4] == History && Priority[5] == Help;
    var earlier := (k > 0 ==> !Mentions(words, Greeting)) && (k > 1 ==> !Mentions(words, CurrentPrice)) &&
                   (k > 2 ==> !Mentions(words, Predict)) && (k > 3 ==> !Mentions(words, HedgeOrSpeculate)) &&
                   (k > 4 ==> !Mentions(words, History));
    if earlier {
      forall j | 0 <= j < k ensures !Mentions(words, Priority[j]) {
        assert j == 0 || j == 1 || j == 2 || j == 3 || j == 4;
      }
    }
  }

  /** The fallback intent comes out exactly when the words mention no keyword at all. */
  lemma {:induction false} UnknownIffNoKeyword(words: seq<string>)
    ensures Classify(words) == Unknown <==> forall intent :: !Mentions(words, intent)
  {
    MentionsByKeyword(words);
    if Classify(words) == Unknown {
      forall intent ensures !Mentions(words, intent) {
        match intent
        case Greeting =>
        case CurrentPrice =>
        case Predict =>
        case HedgeOrSpeculate =>
        case History =>
        case Help =>
        case Unknown =>
      }
    } else {
      assert Mentions(words, Classify(words));
    }
  }

  /** An utterance's intent and entity, from its tokens. */
  function Interpret(tokens: seq<string>, stopWords: set<string>, columns: set<Commodity>): (Intent, Option<Commodity>) {
    var words := FilterTokens(tokens, stopWords);
    (Classify(words), FirstCommodity(words, columns))
  }

  /** The columns of the generated frame. */
  const Columns: set<Commodity> := {"Diesel", "Petroleum", "Lng"}

  /** A few English stop words, the ones the examples below need. */
  const SomeStopWords: set<string> := {"what", "is", "the", "of", "or", "on", "for", "are", "me"}

  /** A greeting outranks a price question. */
  lemma GreetingOutranksPrice(tokens: seq<string>, stopWords: set<string>, columns: set<Commodity>)
    requires "hello" in tokens && "price" in tokens && "hello" !in stopWords && "price" !in stopWords
    ensures Interpret(tokens, stopWords, columns).0 == Greeting
  {
    FilteredTokensShape(tokens, stopWords);
    assert IsAlnum("hello");
  }

  /** A price question outranks a prediction request. */
  lemma PriceOutranksPredict(tokens: seq<string>, stopWords: set<string>, columns: set<Commodity>)
    requires "price" in tokens && "predict" in tokens && "price" !in stopWords && "predict" !in stopWords
    requires "hello" !in tokens && "hi" !in tokens && "hey" !in tokens
    ensures Interpret(tokens, stopWords, columns).0 == CurrentPrice
  {
    FilteredTokensShape(tokens, stopWords);
    assert IsAlnum("price");
  }

  /** A word too short, too long or starting with the wrong letter to be a column name. */
  lemma NotNamingColumn(w: string, columns: set<Commodity>)
    requires |w| > 0
    requires forall c :: c in columns ==> |c| != |w| || c[0] != UpperChar(w[0])
    ensures !NamesColumn(w, columns)
  {
    assert Capitalize(w)[0] == UpperChar(w[0]) && |Capitalize(w)| == |w|;
    assert Upper(w)[0] == UpperChar(w[0]) && |Upper(w)| == |w|;
  }

  // The worked examples below take the token list as a parameter pinned by
  // `requires t == [...]` rather than writing the literal into the ensures:
  // with the literal inline, the verifier unfolds both filters over every
  // token at once and runs out of resources. Each example is split into one
  // lemma per stage (the filters, then the intent and entity) for the same
  // reason: every stage is a small proof of its own.

  /** "What is the current price of Diesel?", as the tokenizer splits it. */
  lemma ExampleCurrentPrice(t: seq<string>)
    requires t == ["what", "is", "the", "current", "price", "of", "diesel", "?"]
    ensures Interpret(t, SomeStopWords, Columns) == (CurrentPrice, Some("Diesel"))
  {
    CurrentPriceWords(t);
    DieselQuestion(["current", "price", "diesel"]);
  }

  lemma CurrentPriceWords(t: seq<string>)
    requires t == ["what", "is", "the", "current", "price", "of", "diesel", "?"]
    ensures FilterTokens(t, SomeStopWords) == ["current", "price", "diesel"]
  {
    CurrentPriceAlnum(t);
    CurrentPriceStopWords(["what", "is", "the", "current", "price", "of", "diesel"]);
  }

  lemma CurrentPriceAlnum(t: seq<string>)
    requires t == ["what", "is", "the", "current", "price", "of", "diesel", "?"]
    ensures Filter(IsAlnum, t) == ["what", "is", "the", "current", "price", "of", "diesel"]
  {
    assert "?"[0] == '?';
    assert Filter(IsAlnum, t[7..]) == [];
    assert Filter(IsAlnum, t[6..]) == ["diesel"];
    assert Filter(IsAlnum, t[5..]) == ["of", "diesel"];
    assert Filter(IsAlnum, t[4..]) == ["price", "of", "diesel"];
    assert Filter(IsAlnum, t[3..]) == ["current", "price", "of", "diesel"];
    assert Filter(IsAlnum, t[2..]) == ["the", "current", "price", "of", "diesel"];
    assert Filter(IsAlnum, t[1..]) == ["is", "the", "current", "price", "of", "diesel"];
  }

  lemma CurrentPriceStopWords(a: seq<string>)
    requires a == ["what", "is", "the", "current", "price", "of", "diesel"]
    ensures Filter(NotStopWord(SomeStopWords), a) == ["current", "price", "diesel"]
  {
    assert Filter(NotStopWord(SomeStopWords), a[6..]) == ["diesel"];
    assert Filter(NotStopWord(SomeStopWords), a[5..]) == ["diesel"];
    assert Filter(NotStopWord(SomeStopWords), a[4..]) == ["price", "diesel"];
    assert Filter(NotStopWord(SomeStopWords), a[3..]) == ["current", "price", "diesel"];
    assert Filter(NotStopWord(SomeStopWords), a[2..]) == ["current", "price", "diesel"];
    assert Filter(NotStopWord(SomeStopWords), a[1..]) == ["current", "price", "diesel"];
  }

  lemma DieselQuestion(words: seq<string>)
    requires words == ["current", "price", "diesel"]
    ensures Classify(words) == CurrentPrice && FirstCommodity(words, Columns) == Some("Diesel")
  {
    NotNamingColumn("current", Columns);
    NotNamingColumn("price", Columns);
    assert Capitalize("diesel") == "Diesel";
    assert FirstCommodity(words[2..], Columns) == Some("Diesel");
    assert FirstCommodity(words[1..], Columns) == Some("Diesel");
  }

  /** "hedge or speculate on LNG", as the tokenizer splits it. */
  lemma ExampleHedge(t: seq<string>)
    requires t == ["hedge", "or", "speculate", "on", "lng"]
    ensures Interpret(t, SomeStopWords, Columns) == (HedgeOrSpeculate, Some("Lng"))
  {
    HedgeWords(t);
    LngQuestion(["hedge", "speculate", "lng"]);
  }

  lemma HedgeWords(t: seq<string>)
    requires t == ["hedge", "or", "speculate", "on", "lng"]
    ensures FilterTokens(t, SomeStopWords) == ["hedge", "speculate", "lng"]
  {
    assert Filter(IsAlnum, t) == t by {
      assert Filter(IsAlnum, t[4..]) == ["lng"];
      assert Filter(IsAlnum, t[3..]) == ["on", "lng"];
      assert Filter(IsAlnum, t[2..]) == ["speculate", "on", "lng"];
      assert Filter(IsAlnum, t[1..]) == ["or", "speculate", "on", "lng"];
    }
    assert Filter(NotStopWord(SomeStopWords), t[4..]) == ["lng"];
    assert Filter(NotStopWord(SomeStopWords), t[3..]) == ["lng"];
    assert Filter(NotStopWord(SomeStopWords), t[2..]) == ["speculate", "lng"];
    assert Filter(NotStopWord(SomeStopWords), t[1..]) == ["speculate", "lng"];
  }

  lemma LngQuestion(words: seq<string>)
    requires words == ["hedge", "speculate", "lng"]
    ensures Classify(words) == HedgeOrSpeculate && FirstCommodity(words, Columns) == Some("Lng")
  {
    assert Classify(words) == HedgeOrSpeculate by {
      assert "hedge" in words;
      assert "price" !in words && "prices" !in words && "predict" !in words && "predictions" !in words;
    }
    assert FirstCommodity(words, Columns) == Some("Lng") by {
      NotNamingColumn("hedge", Columns);
      NotNamingColumn("speculate", Columns);
      assert Capitalize("lng") == "Lng";
      assert FirstCommodity(words[2..], Columns) == Some("Lng");
      assert FirstCommodity(words[1..], Columns) == Some("Lng");
    }
  }

  /** "banana please": no keyword and no commodity. */
  lemma ExampleUnknown(t: seq<string>)
    requires t == ["banana", "please"]
    ensures Interpret(t, SomeStopWords, Columns) == (Unknown, None)
  {
    UnknownWords(t);
    NotNamingColumn("banana", Columns);
    NotNamingColumn("please", Columns);
    assert FirstCommodity(t[1..], Columns) == None;
  }

  lemma UnknownWords(t: seq<string>)
    requires t == ["banana", "please"]
    ensures FilterTokens(t, SomeStopWords) == t
  {
    assert Filter(IsAlnum, t[1..]) == ["please"];
    assert Filter(IsAlnum, t) == t;
    assert Filter(NotStopWord(SomeStopWords), t[1..]) == ["please"];
  }
}
