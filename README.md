# SMA alert engine — Dafny model

A model of the watch-and-alert engine of the SMA Alert App (`SMA_Alert_App.py`):
a registry of watches keyed by symbol, a simple-moving-average calculator, the
strict crossing test of the last close against the last SMA, one pass of the
evaluation loop that notifies and removes every watch that fired, and the
chunked download of price history.

Modules (one per component, all in this directory):

- `wrappers.dfy` — `Option` and `Result`.
- `sma.dfy` — bars, column selection (`HIGH`/`LOW`/`CLOSE`), the rolling mean
  (`RollingMean`) and `calculate_sma` (`CalculateSma`). Prices are exact reals;
  a position without a full window holds `None` where pandas writes NaN.
- `evaluation.dfy` — the watch record, a per-symbol fetch result
  (`Failed | Bars(...)`), the crossing test (`Cross`) and the evaluation of one
  watch (`Evaluate`).
- `registry.dfy` — the class `WatchRegistry` holding `symbols: map<string, Watch>`
  (`st.session_state.symbols`), a ghost `persisted` map standing for the
  symbols file and a ghost `saves` counter of file rewrites; `Add`, `Remove`,
  `Deactivate` and `Tick`. `Tick` takes this tick's fetch results as a map from
  symbol to `Failed | Bars(...)` and returns the notification attempts it made.
- `paging.dfy` — the pagination loop of `fetch_historical_data` over integer day
  numbers, with the download provider a function from a chunk `[from, until)`
  to its rows or an exception.

Behaviour of the code worth noting, which the model keeps:

- `pop` and item assignment raise `KeyError` on a missing symbol, so `Remove`
  and `Deactivate` of an absent symbol change nothing and do not save; they
  report `found == false` instead of being a silent no-op.
- There is no "insufficient history" error in the code: with fewer bars than
  `period` the last SMA is NaN, both comparisons are false, and nothing fires.
- `Add` does not validate the watch; the form's widgets restrict the values,
  and any string that reaches the calculator or the crossing test is handled
  there (an unknown method raises and the symbol is skipped; an unknown
  condition fires nothing).
- Pagination stops once strictly more than `span` rows are collected, and an
  exception in any chunk makes the whole result empty.
- Paging starts at the oldest day of the look-back window and `span` is the
  watch's `period`. When the oldest weeks of the window already hold more
  than `period` bars (any period well below the window's bar count, such as
  a `1d` period up to about 200), paging stops there, so the bars handed to
  the SMA are the oldest ones of the window: for `1h`/`1d` watches they end
  months before now, and the "last close" tested is the last close of those
  bars, not the latest price (`Paging.StaleDaily`). With a period close to or
  above the window's bar count (a `1d` period of 260, say, against about 252
  trading days), or for a recently listed symbol, paging runs to the end day
  and the latest close is the one tested.

## Model

| member | source | states |
|---|---|---|
| `Sma.RollingMean` | SMA_Alert_App.py:23 | the SMA column has one entry per price; entry `i` is the mean of the `period` prices ending at `i` when `i >= period-1`, and undefined otherwise |
| `Sma.DefinedCount` | SMA_Alert_App.py:23 | a series of `n` prices has exactly `max(0, n-period+1)` defined SMA entries |
| `Sma.CalculateSma` | SMA_Alert_App.py:13-24 | fails with `InvalidMethod` exactly when the method is not `HIGH`, `LOW` or `CLOSE`, fails for a window below 1, and otherwise returns one entry per bar, defined exactly from index `period-1` on, each the mean of the selected column over its window |
| `Evaluation.Cross` | SMA_Alert_App.py:130-140 | a `greater` watch fires iff close > SMA, a `less` watch iff close < SMA; equality, an undefined SMA or any other condition fires neither |
| `Evaluation.Evaluate` | SMA_Alert_App.py:122-143 | a watch fires only on a successful non-empty fetch with a valid method and `1 <= period <= |bars|`; it fires above (below) iff its condition is `greater` (`less`) and the last close is strictly above (below) the mean of the last `period` values of its column |
| `Evaluation.ExampleFiresAbove` | SMA_Alert_App.py:127-134 | CLOSE, period 3, closes 10, 10, 10, 12: 12 > 32/3, so a `greater` watch fires |
| `Registry.TriggeredAmong` | SMA_Alert_App.py:120-140 | the triggered symbols are registered, active and had a successful fetch; a registered symbol is triggered iff its evaluation fires |
| `Registry.FailureIsolated` | SMA_Alert_App.py:122-143 | a failed fetch for one symbol removes that symbol, and only that one, from the triggered set |
| `Registry.CollectTriggered` | SMA_Alert_App.py:119-143 | the marked symbols are distinct and are exactly the triggered ones, each with one notification to its own webhook in its crossing's direction; every notified symbol is registered and active |
| `Registry.WatchRegistry.Load` | SMA_Alert_App.py:61-66 | start-up reads the stored map, or the empty map when there is no file; memory and file agree (`Synced`) |
| `Registry.WatchRegistry.Save` | SMA_Alert_App.py:69-71 | the file becomes the whole in-memory map; one more rewrite |
| `Registry.WatchRegistry.Add` | SMA_Alert_App.py:91-100 | only a non-empty symbol is added; its entry is overwritten with the given fields and `active = true`, every other entry is unchanged, and the file equals the new map; memory and file that agreed before still agree after (`Synced` is preserved) |
| `Registry.WatchRegistry.Remove` | SMA_Alert_App.py:108-111 | a present symbol is deleted, nothing else changes, and the file equals the new map; an absent one changes nothing; memory and file that agreed before still agree after (`Synced` is preserved) |
| `Registry.WatchRegistry.Deactivate` | SMA_Alert_App.py:112-115 | a present symbol gets `active = false` with its other fields and all other entries unchanged, and the file equals the new map; an absent one changes nothing; memory and file that agreed before still agree after (`Synced` is preserved) |
| `Registry.WatchRegistry.RemoveBatch` | SMA_Alert_App.py:146-147 | popping distinct registered symbols one by one removes exactly that set, and no pop misses |
| `Registry.WatchRegistry.Tick` | SMA_Alert_App.py:118-150 | afterwards the map is the old map minus exactly the triggered symbols; inactive watches are kept unchanged; every removed symbol got exactly one notification attempt with its own webhook and direction, and only active watches are notified (inactive ones are never evaluated, notified or removed, line 121); the file is rewritten once, with the new map, iff something triggered, and is untouched otherwise; memory and file that agreed before still agree after (`Synced` is preserved) |
| `Paging.StaleDaily` | SMA_Alert_App.py:30-44 | for any interval other than `1m`, `5m`, `15m`, when the oldest chunk (days `e-365` to `e-358`) holds more than `span` rows, the result is exactly that chunk's rows; no later chunk matters |
| `Paging.PlanShape` | SMA_Alert_App.py:36-42 | the chunks cover `[start, end)` contiguously, start to end, each at least one and at most seven days long, `ceil((end-start)/7)` of them |
| `Paging.GatheredGrows` | SMA_Alert_App.py:40-41 | the gathered rows only grow as downloads are added |
| `Paging.FetchHistorical` | SMA_Alert_App.py:27-49 | the first download starts 7 days before the end day for `1m`, `5m`, `15m` and 365 days before it for every other interval (lines 30-33); the result is `Paged` of the look-back plan (rows gathered chunk by chunk, empty once a chunk raises, returned as soon as more than `span` rows are in hand); the downloads made satisfy `Finished` (written out in `Paging.FinishedMeans`): they are a prefix of the look-back plan, all but the last succeeded and the loop had not yet passed `span` rows before the last; an exception in the last gives an empty result; otherwise the result is all rows downloaded, and paging ended early only with more than `span` rows |

## Left out

- The Streamlit page (title, form, columns, buttons, `st.write`, `st.rerun`, the `submitted` flag): only the registry mutations the page triggers are modelled.
- `yf.download`: the provider is a parameter of `Paging.FetchHistorical`, and `Tick` receives each symbol's fetch result as input (a symbol without one counts as failed); the two are not composed.
- `requests.post` to the webhook: a notification attempt is an `Alert` record returned by `Tick`; whether delivery succeeded is not observed, as the code swallows the error.
- `json.load` / `json.dump`: the file is the ghost map `persisted`; a missing file is `None` given to `Load`. JSON encoding and write failures are not modelled.
- `time.sleep(60)`, the endless `while True` and `datetime.now()`: one pass is modelled as `Tick`; dates are integer day numbers given as `endDay`.
- Floating-point rounding and NaN propagation inside windows: prices are exact reals and never NaN; only the "no full window" NaN is modelled, as `None`.
- DataFrame details: rows are bars with only High, Low and Close; the empty-chunk check before `pd.concat` is implicit since appending no rows changes nothing.
- Dict iteration order: `CollectTriggered` visits symbols in an unspecified order, so the order of the returned notifications is not stated, only which ones there are.
- `Sma.CalculateSma`: a window below 1 is modelled as an error (`InvalidWindow`); pandas raises for a negative window and gives no usable mean for a window of 0, so in the code such a watch never fires either.
- Message text: an alert is modelled by its symbol, webhook and direction; the wording of the posted message is not modelled.
- `Registry.WatchRegistry.Tick` is one pass that cannot be interrupted. In the code the webhook post happens before the symbol is marked, and the pops and the save happen only after the whole pass; a pass aborted in between (the process exiting, a rerun raised at `st.write`) leaves an already-notified watch registered, so it fires again. "Exactly one notification per removed symbol" holds only for a pass that completes.
- Several browser sessions: `st.session_state` is per session (lines 77-78) and each session runs its own evaluation loop (line 118) and writes its whole copy of the map to the one shared file (lines 100, 110, 114, 150). The model is one session with one registry; with two sessions the same crossing is notified once per session, and one session's save can undo another's changes. "Exactly one notification per removed symbol" and `Synced` hold per session.
