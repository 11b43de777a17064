# CoinQuery identifier resolution, in Dafny

CoinQuery is a Ruby client for the CoinGecko price API. Before it asks the
API for a price it turns what the user typed ("Bitcoin", "BTC", "btc") into
CoinGecko's canonical coin id. That is `CoinQuery#find_id`. It scans the cached
`coins/list` catalog in order, ignoring letter case, and returns the id of the
first coin whose symbol or name matches. On a miss it raises
`CoinQueryException`. When the "did you mean" option is on, the message
carries the spell checker's first correction. The spell checker's dictionary
is every symbol and name of the catalog.

This project models that resolution step and proves what it promises:

- `wrappers.dfy`: `Option`, used for Ruby's nil-or-value results.
- `text.dfy`: `String#downcase` on ASCII letters (`Text.Lower`). It proves
  that lower-casing keeps the length, is idempotent and leaves no upper-case
  letter. It also proves that two strings lower-case to the same string
  exactly when they differ only in letter case.
- `coinquery.dfy`: the catalog record, the instance fields that `find_id`
  reads, the `Enumerable#find` scan, the `flat_map` dictionary, `find_id`
  itself, the exception message, and the lemmas about them.

The instance fields `@autofind`, `@dym` and `@list` are assigned only by the
constructor and only read afterwards, so the model passes them in as an
immutable value (`CoinQuery.Client`). The did_you_mean gem's
`SpellChecker#correct` is external code. It is a parameter
`correct: (seq<string>, string) -> seq<string>` that receives the dictionary
and the word as typed. Nothing is assumed about it, except in
`SuggestionIsKnownToken`, which says what follows when it only proposes
dictionary words. The exception becomes the `UnknownCoin` case of the result.

## Model

| member | source | states |
|---|---|---|
| `Text.Lower` | lib/coinquery.rb:147 | `downcase` keeps the length of the string |
| `Text.LowerAt` | lib/coinquery.rb:147 | character i of the lower-cased string is character i lower-cased |
| `Text.LowerHasNoUpper` | lib/coinquery.rb:147 | a lower-cased string contains no upper-case letter |
| `Text.LowerIdempotent` | lib/coinquery.rb:147 | lower-casing twice gives the same string as lower-casing once |
| `Text.SameIgnoringCaseIff` | lib/coinquery.rb:147-149 | two strings lower-case to the same string if and only if they differ only in letter case |
| `CoinQuery.FindFirst` | lib/coinquery.rb:149 | `@list.find`: a returned position holds a record whose lower-cased symbol or name equals the key, and no earlier record matches; no result means no record matches |
| `CoinQuery.Vocabulary` | lib/coinquery.rb:48-49 | the dictionary has twice as many words as the list has records; record i contributes its symbol at position 2i and its name at 2i+1 |
| `CoinQuery.VocabularyWordIsToken` | lib/coinquery.rb:48-49 | every position of the dictionary holds the symbol or the name of some record |
| `CoinQuery.VocabularyContains` | lib/coinquery.rb:48-49 | a word is in the dictionary if and only if it is the symbol or the name of some record |
| `CoinQuery.FindId` | lib/coinquery.rb:143-170 | with autofind off, the input comes back unchanged; with it on, lookup succeeds if and only if some record matches the lower-cased input, and then the id is that of the first matching record; a failure carries the spell checker's first correction of the input as typed when `@dym` is on, and no suggestion otherwise |
| `CoinQuery.Message` | lib/coinquery.rb:157-162 | every failure message starts with "unknown coin or token name."; it is exactly that text if and only if the spell checker is off; otherwise it continues with " \nDid you mean " and ends with "?", and a suggestion stands just before the final "?" with nothing else in between (an empty correction list still gives "... Did you mean ?") |
| `CoinQuery.FailureMessage` | lib/coinquery.rb:152-166 | a failed lookup's message has the "Did you mean" line if and only if `@dym` is on; otherwise it is the plain message |
| `CoinQuery.CaseInsensitive` | lib/coinquery.rb:147-149 | with autofind on, two inputs that differ only in letter case both succeed with the same id or both fail; with the spell checker off, the results are identical |
| `CoinQuery.FirstMatchResolves` | lib/coinquery.rb:149-168 | the id returned is the id of the first record, in list order, that matches the lower-cased input |
| `CoinQuery.ResolvesBySymbol` | lib/coinquery.rb:147-168 | a record's symbol, in any letter case, resolves to that record's id when no earlier record matches that symbol |
| `CoinQuery.ResolvesByName` | lib/coinquery.rb:147-168 | a record's name, in any letter case, resolves to that record's id when no earlier record matches that name |
| `CoinQuery.DistinctTokensResolveEvery` | lib/coinquery.rb:147-168 | when no two records share a lower-cased symbol or name, every record resolves to its own id from its symbol and from its name |
| `CoinQuery.SuggestionIsKnownToken` | lib/coinquery.rb:154-158 | when the spell checker proposes only dictionary words, a suggestion is the symbol or the name of a catalog record |
| `CoinQuery.BitcoinExample` | lib/coinquery.rb:143-168 | for the catalog `[bitcoin/btc/Bitcoin]`, "BTC", "bitcoin" and "Bitcoin" each resolve to "bitcoin" |

## Left out

- `Text.Lower`: maps only the ASCII letters A-Z. Ruby's `String#downcase` also lower-cases non-ASCII letters (full Unicode case mapping), which this model does not capture.
- The spell-checking algorithm of the did_you_mean gem (`SpellChecker#correct`) is external. It is an arbitrary function parameter, so nothing is proved about the quality of its suggestions.
- The constructor (lib/coinquery.rb:21-73) is not modelled. It pings the API, fetches `coins/list`, builds the spell checker, and caches the list and the checker in `coinquery.dat` with `Marshal`, reading them back on later runs. All of that is file and network I/O. The model takes its outcome as given: `@list` is the catalog, which the constructor fills only when autofind is on, and the spell checker's dictionary is `Vocabulary(@list)`.
- The state the constructor leaves when the `ping` response parses to a falsy JSON value (lib/coinquery.rb:28) is not modelled. Then `@list` stays nil, so `find_id` with autofind on fails with Ruby's `NoMethodError`, and `@dym` is the literal option value rather than a spell checker. A ping that times out or fails to connect raises out of the constructor, so no instance exists in that case.
- A `dym:` option given while `coinquery.dat` already exists is ignored, because the cached spell checker (or `false`) is reloaded. The model's `dym` flag is the effective one.
- `coin_name.to_s` converts non-string input. The model takes a string.
- The `@debug` tracing with `puts` (lib/coinquery.rb:148,150) is console output.
- `api_call` (HTTP via Excon, JSON parsing, the 3-second timeout and its exception mapping), `ping`, `coins`, `coins_list`, `price`, `historical_price` and the `< 1 ? x : x.round(2)` display rule (lib/coinquery.rb:77-141) are not part of this model. They are network I/O, date parsing by the Unichron library, and floating-point rounding.
