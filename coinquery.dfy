/**
 * Coin-identifier resolution of the CoinQuery client (lib/coinquery.rb).
 *
 * `find_id` turns a coin name or ticker symbol typed by a user into the
 * canonical CoinGecko id, by a case-insensitive, first-match scan of the
 * cached coin list; on a miss it fails with CoinQueryException, optionally
 * carrying a "Did you mean ...?" suggestion from the did_you_mean spell
 * checker, whose dictionary is every symbol and name of the list.
 */
module CoinQuery {
  import opened Wrappers
  import opened Text

  /** One entry of the `coins/list` catalog. */
  datatype CoinRecord = CoinRecord(id: string, symbol: string, name: string)

  /**
   * The instance fields find_id reads. They are assigned only by the
   * constructor and only read afterwards. When `dym` is on, `@dym` holds a
   * spell checker whose dictionary is `Vocabulary(list)`.
   */
  datatype Client = Client(autofind: bool, dym: bool, list: seq<CoinRecord>)

  /**
   * `SpellChecker#correct` of the did_you_mean gem, given its dictionary and
   * the misspelt word: the candidate corrections, best first. The algorithm
   * lives outside this code base, so find_id receives it as a parameter.
   */
  type Corrector = (seq<string>, string) -> seq<string>

  /** How a failed lookup explains itself. */
  datatype Hint =
    | Plain                                  // spell checker disabled
    | DidYouMean(suggestion: Option<string>) // first correction, if any

  /** The outcome of find_id: an id, or the CoinQueryException it raises. */
  datatype Resolution = Found(id: string) | UnknownCoin(hint: Hint)

  /** The block given to `@list.find`: lower-cased symbol or name equals s. */
  predicate Matches(c: CoinRecord, s: string) {
    Lower(c.symbol) == s || Lower(c.name) == s
  }

  /** Record k matches s and no earlier record does. */
  ghost predicate IsFirstMatch(list: seq<CoinRecord>, s: string, k: int) {
    0 <= k < |list| && Matches(list[k], s) && forall j :: 0 <= j < k ==> !Matches(list[j], s)
  }

  ghost predicate NoMatch(list: seq<CoinRecord>, s: string) {
    forall j :: 0 <= j < |list| ==> !Matches(list[j], s)
  }

  /** `Enumerable#find`: the position of the first record matching s, in list order. */
  function FindFirst(list: seq<CoinRecord>, s: string): (r: Option<nat>)
    ensures r.Some? ==> IsFirstMatch(list, s, r.value)
    ensures r.None? ==> NoMatch(list, s)
  {
    if list == [] then None
    else if Matches(list[0], s) then Some(0)
    else
      match FindFirst(list[1..], s)
      case None => None
      case Some(k) => Some(k + 1)
  }

  /**
   * The spell checker's dictionary, `@list.flat_map {|x| [x['symbol'], x['name']]}`:
   * each record contributes its symbol and then its name, in list order.
   */
  function Vocabulary(list: seq<CoinRecord>): (v: seq<string>)
    ensures |v| == 2 * |list|
    ensures forall i :: 0 <= i < |list| ==> v[2 * i] == list[i].symbol && v[2 * i + 1] == list[i].name
  {
    if list == [] then []
    else
      var rest := Vocabulary(list[1..]);
      assert forall i :: 1 <= i < |list| ==> list[i] == list[1..][i - 1];
      [list[0].symbol, list[0].name] + rest
  }

  /** Every word of the dictionary is the symbol or the name of a record. */
  lemma {:induction false} VocabularyWordIsToken(list: seq<CoinRecord>, m: nat)
    requires m < |Vocabulary(list)|
    ensures exists i :: 0 <= i < |list| && (list[i].symbol == Vocabulary(list)[m] || list[i].name == Vocabulary(list)[m])
  {
    var w := Vocabulary(list)[m];
    if m < 2 {
      assert list[0].symbol == w || list[0].name == w;
    } else {
      assert Vocabulary(list)[m] == Vocabulary(list[1..])[m - 2];
      VocabularyWordIsToken(list[1..], m - 2);
      var i :| 0 <= i < |list[1..]| && (list[1..][i].symbol == w || list[1..][i].name == w);
      assert list[i + 1] == list[1..][i];
    }
  }

  /** The dictionary holds exactly the symbols and names of the catalog. */
  lemma VocabularyContains(list: seq<CoinRecord>, w: string)
    ensures w in Vocabulary(list) <==> exists i :: 0 <= i < |list| && (list[i].symbol == w || list[i].name == w)
  {
    var v := Vocabulary(list);
    if w in v {
      var m :| 0 <= m < |v| && v[m] == w;
      VocabularyWordIsToken(list, m);
    }
    if exists i :: 0 <= i < |list| && (list[i].symbol == w || list[i].name == w) {
      var i :| 0 <= i < |list| && (list[i].symbol == w || list[i].name == w);
      assert v[2 * i] == list[i].symbol && v[2 * i + 1] == list[i].name;
    }
  }

  /** `suggestion.first`: nil for an empty list of corrections. */
  function FirstOf(ws: seq<string>): Option<string> {
    if ws == [] then None else Some(ws[0])
  }

  /**
   * `find_id(coin_name)`. With autofind off the input is trusted as an id.
   * Otherwise the first record whose lower-cased symbol or name equals the
   * lower-cased input gives the id; on a miss the result is the exception,
   * whose suggestion comes from correcting the input as typed.
   */
  function FindId(q: Client, correct: Corrector, coinName: string): (r: Resolution)
    ensures !q.autofind ==> r == Found(coinName)
    ensures q.autofind ==> (r.Found? <==> !NoMatch(q.list, Lower(coinName)))
    ensures q.autofind && r.Found? ==>
      exists k :: IsFirstMatch(q.list, Lower(coinName), k) && r.id == q.list[k].id
    ensures r.UnknownCoin? ==>
      r.hint == if q.dym then DidYouMean(FirstOf(correct(Vocabulary(q.list), coinName))) else Plain
  {
    if !q.autofind then Found(coinName)
    else
      match FindFirst(q.list, Lower(coinName))
      case Some(k) => Found(q.list[k].id)
      case None =>
        UnknownCoin(if q.dym then DidYouMean(FirstOf(correct(Vocabulary(q.list), coinName))) else Plain)
  }

  const UnknownText: string := "unknown coin or token name."
  const DidYouMeanText: string := " \nDid you mean "

  /**
   * The message of the CoinQueryException raised on a miss. Ruby formats a
   * nil suggestion with `%s` as the empty string.
   */
  function Message(h: Hint): (m: string)
    ensures UnknownText <= m
    ensures h.Plain? <==> m == UnknownText
    ensures h.DidYouMean? ==> UnknownText + DidYouMeanText <= m && m[|m| - 1] == '?'
    ensures h.DidYouMean? && h.suggestion.None? ==> m == UnknownText + DidYouMeanText + "?"
    ensures h.DidYouMean? && h.suggestion.Some? ==>
      |m| == |UnknownText + DidYouMeanText| + |h.suggestion.value| + 1 &&
      m[|m| - 1 - |h.suggestion.value| .. |m| - 1] == h.suggestion.value
  {
    match h
    case Plain => UnknownText
    case DidYouMean(s) =>
      UnknownText + DidYouMeanText + (match s case None => "" case Some(w) => w) + "?"
  }

  /**
   * A failed lookup's message carries the "Did you mean" line exactly when
   * the spell checker is on; otherwise it is the plain unknown-coin message.
   */
  lemma FailureMessage(q: Client, correct: Corrector, coinName: string)
    requires FindId(q, correct, coinName).UnknownCoin?
    ensures var m := Message(FindId(q, correct, coinName).hint);
      (UnknownText + DidYouMeanText <= m <==> q.dym) && (!q.dym ==> m == UnknownText)
  {
    var m := Message(FindId(q, correct, coinName).hint);
    if !q.dym {
      assert |m| < |UnknownText + DidYouMeanText|;
    }
  }

  /**
   * Inputs that differ only in letter case resolve alike: both succeed with
   * the same id or both fail; the failures are identical when the spell
   * checker is off (with it on, the suggestion is computed from the input as
   * typed and may differ).
   */
  lemma CaseInsensitive(q: Client, correct: Corrector, a: string, b: string)
    requires q.autofind
    requires SameIgnoringCase(a, b)
    ensures FindId(q, correct, a).Found? <==> FindId(q, correct, b).Found?
    ensures FindId(q, correct, a).Found? ==> FindId(q, correct, a).id == FindId(q, correct, b).id
    ensures !q.dym ==> FindId(q, correct, a) == FindId(q, correct, b)
  {
    SameIgnoringCaseIff(a, b);
  }

  /** The first record matching the input is the one whose id is returned. */
  lemma FirstMatchResolves(q: Client, correct: Corrector, x: string, k: nat)
    requires q.autofind && k < |q.list|
    requires Matches(q.list[k], Lower(x))
    requires forall j :: 0 <= j < k ==> !Matches(q.list[j], Lower(x))
    ensures FindId(q, correct, x) == Found(q.list[k].id)
  {
    var r := FindFirst(q.list, Lower(x));
    assert r.Some? by {
      assert !NoMatch(q.list, Lower(x));
    }
    assert r.value == k by {
      assert !(r.value < k);
      assert !(k < r.value);
    }
  }

  /**
   * A record's symbol, typed in any letter case, resolves to that record's id
   * unless an earlier record already carries that symbol (or that word as
   * its name).
   */
  lemma ResolvesBySymbol(q: Client, correct: Corrector, k: nat, x: string)
    requires q.autofind && k < |q.list|
    requires SameIgnoringCase(x, q.list[k].symbol)
    requires forall j :: 0 <= j < k ==> !Matches(q.list[j], Lower(q.list[k].symbol))
    ensures FindId(q, correct, x) == Found(q.list[k].id)
  {
    SameIgnoringCaseIff(x, q.list[k].symbol);
    FirstMatchResolves(q, correct, x, k);
  }

  /** The same for a record's name. */
  lemma ResolvesByName(q: Client, correct: Corrector, k: nat, x: string)
    requires q.autofind && k < |q.list|
    requires SameIgnoringCase(x, q.list[k].name)
    requires forall j :: 0 <= j < k ==> !Matches(q.list[j], Lower(q.list[k].name))
    ensures FindId(q, correct, x) == Found(q.list[k].id)
  {
    SameIgnoringCaseIff(x, q.list[k].name);
    FirstMatchResolves(q, correct, x, k);
  }

  /** No two records share a lower-cased symbol or name. */
  ghost predicate DistinctTokens(list: seq<CoinRecord>) {
    forall i, j :: 0 <= i < j < |list| ==>
      !Matches(list[i], Lower(list[j].symbol)) && !Matches(list[i], Lower(list[j].name))
  }

  /**
   * In a catalog without shared symbols or names, every record is found by
   * its own symbol and by its own name.
   */
  lemma DistinctTokensResolveEvery(q: Client, correct: Corrector, k: nat)
    requires q.autofind && k < |q.list|
    requires DistinctTokens(q.list)
    ensures FindId(q, correct, q.list[k].symbol) == Found(q.list[k].id)
    ensures FindId(q, correct, q.list[k].name) == Found(q.list[k].id)
  {
    ResolvesBySymbol(q, correct, k, q.list[k].symbol);
    ResolvesByName(q, correct, k, q.list[k].name);
  }

  /**
   * When the spell checker only proposes words of its dictionary, a
   * suggestion is always the symbol or the name of some catalog entry.
   */
  lemma SuggestionIsKnownToken(q: Client, correct: Corrector, coinName: string)
    requires forall w :: w in correct(Vocabulary(q.list), coinName) ==> w in Vocabulary(q.list)
    ensures var r := FindId(q, correct, coinName);
      r.UnknownCoin? && r.hint.DidYouMean? && r.hint.suggestion.Some? ==>
        exists i :: 0 <= i < |q.list| &&
          (q.list[i].symbol == r.hint.suggestion.value || q.list[i].name == r.hint.suggestion.value)
  {
    var r := FindId(q, correct, coinName);
    if r.UnknownCoin? && r.hint.DidYouMean? && r.hint.suggestion.Some? {
      var ws := correct(Vocabulary(q.list), coinName);
      assert r.hint.suggestion.value == ws[0];
      VocabularyContains(q.list, ws[0]);
    }
  }

  /** A one-coin catalog: "BTC", "bitcoin" and "Bitcoin" all give "bitcoin". */
  lemma BitcoinExample(correct: Corrector, dym: bool)
    ensures var q := Client(true, dym, [CoinRecord("bitcoin", "btc", "Bitcoin")]);
      FindId(q, correct, "BTC") == Found("bitcoin") &&
      FindId(q, correct, "bitcoin") == Found("bitcoin") &&
      FindId(q, correct, "Bitcoin") == Found("bitcoin")
  {
    var q := Client(true, dym, [CoinRecord("bitcoin", "btc", "Bitcoin")]);
    ResolvesBySymbol(q, correct, 0, "BTC");
    ResolvesByName(q, correct, 0, "bitcoin");
    ResolvesByName(q, correct, 0, "Bitcoin");
  }
}
