# InputLeap logger: outputter chain, filter and severity markers

A model of the logging facility declared in `src/lib/base/Log.h` of InputLeap.
It covers the following parts:

- **Log** (`log.dfy`, module `Logging`). The logger object holds two ordered lists of outputters and a threshold:
  - `outputters` is the normal list. Its outputters are called front to back. Any one of them can stop the message by returning false from `write`.
  - `alwaysOutputters` is the always-at-head list. Every outputter in it is called first, and what it returns is ignored.
  - `maxPriority` is the least urgent level that is still output.

  `Insert`, `Remove` and `PopFront` change the lists in place. `SetFilter` and `SetFilterByName` change the threshold. `Output` walks the chain. `Print` decodes the level, filters, renders and outputs.
- **Dispatch** (`chain.dfy`, module `Chain`). These are the specification functions that `Output` is proved against. `AlwaysCalls` and `NormalChain` give the calls one dispatch makes. The lemmas next to them state the ordering and veto properties.
- **Severity markers** (`marker.dfy`, module `Marker`). A level travels inside the format string as `'@'`, `'z'` and a level character. The level is that character minus `'0'` (octal 060), so `'/'` is Print (−1) and `':'` is Debug5 (10). `Encode` is the literal concatenation done at the call site (`CLOG_WARN "..."`), and `Decode` is the split done in `print`.
- **Levels** (`levels.dfy`, module `Levels`). These are the level ordinals and the names the filter accepts.

The outputters appear only by identity. Their `write` is an oracle of type `Verdict`: a function from outputter, level and message to the boolean it returns. `Output` and `Print` return the sequence of `write` calls they make. The printf-style expansion of the template is the parameter `expand`.

The level names are the suffixes of the `CLOG_*` macros (`CRIT`, `ERR`, `WARN`, `NOTE`, `INFO`, `DEBUG`, `DEBUG1` … `DEBUG5`). They are matched exactly and case-sensitively. The name table of `Log.cpp` is not part of this model. `PRINT` is not a filter name, and an ordinal outside 0..10 has no name (`None`).

The header says nothing about a format string without a marker. Such a string is modelled as entirely template at level Info (4), which is the header's default threshold. The header says only that the level is the marker's third character minus `'0'`. So a marker whose third character lies outside `'/'`..`':'` decodes to that offset, and no range check or fallback is applied.

`remove` is documented as removing the first occurrence of the outputter. The model searches the normal list first. Only if the outputter is not there does it search the always-at-head list. In either case one entry at most is removed.

The message an outputter receives is a `Message`: the expanded text plus an optional `Origin` (file and line). The exact prefix text is produced in `Log.cpp`, which is not part of this model.

## Model

| member | source | states |
|---|---|---|
| `Logging.Log.constructor` | src/lib/base/Log.h:65-66 | A new logger has exactly one outputter installed, the console outputter, at the head of the normal list. Its always-at-head list is empty, and its threshold is the given default. |
| `Logging.Log.Insert` | src/lib/base/Log.h:53-68 | `Insert(o, false)` puts `o` at the head of the normal list. `Insert(o, true)` puts it at the head of the always-at-head list. The other list and the threshold are unchanged. |
| `Logging.Log.Remove` | src/lib/base/Log.h:70-76 | Removes only the first occurrence of the outputter. It searches the normal list first and the always-at-head list only when the outputter is not in the normal list. The other list is untouched, and nothing changes when the outputter is absent. |
| `Logging.FindFirst` | src/lib/base/Log.h:70-76 | The loop that finds the first occurrence. It returns the first index holding the outputter, or the length of the list exactly when the outputter is absent. |
| `Logging.RemoveFirst` | src/lib/base/Log.h:70-76 | The list loses exactly one copy of the outputter when it holds one (length and multiset). It is unchanged when the outputter is absent. |
| `Logging.RemoveFirstAt` | src/lib/base/Log.h:70-76 | Removal keeps every other entry in order: the result is the list minus the entry at the first index that holds the outputter. |
| `Logging.RemoveUnique` | src/lib/base/Log.h:70-76 | An outputter listed once is no longer in the list after removal. |
| `Logging.RemovedNeverCalled` | src/lib/base/Log.h:70-76 | An outputter listed at most once is never called by a dispatch after its removal, whichever list it was in. |
| `Logging.Log.PopFront` | src/lib/base/Log.h:78-84 | Removes exactly the head of the list chosen by `alwaysAtHead`. It does nothing on an empty list and never touches the other list or the threshold. |
| `Logging.PoppedNeverCalled` | src/lib/base/Log.h:78-84 | The popped head of either list, normal or always-at-head, listed nowhere else, is never called by a later dispatch. |
| `Logging.Log.GetFilter` | src/lib/base/Log.h:113-114 | The returned threshold is the boundary of the filter: a level other than Print passes iff it is at most the threshold. |
| `Logging.Log.SetFilter` | src/lib/base/Log.h:96-97 | After `SetFilter(p)`, `GetFilter()` returns `p`, and the lists are unchanged. |
| `Logging.Log.SetFilterByName` | src/lib/base/Log.h:86-94 | Returns true iff the name is null or a known level name. A known name sets the threshold to the level with that name. A null or unknown name leaves the threshold unchanged. |
| `Logging.Log.GetFilterName` | src/lib/base/Log.h:116-117 | The threshold has a name iff it is in 0..10, and that name maps back to the threshold. |
| `Levels.NameOf` | src/lib/base/Log.h:119-120 | A level has a name iff it is in 0..10. Otherwise the result is the unknown label, never an out-of-bounds read. The name maps back to the same level. |
| `Levels.LevelNamed` | src/lib/base/Log.h:86-94 | A recognised name denotes a level in 0..10 whose name it is. A name is unrecognised iff it is not in the table. |
| `Levels.Find` | src/lib/base/Log.h:86-94 | The search behind name lookup returns the first index holding the name, or none exactly when the name does not occur. |
| `Logging.Log.Output` | src/lib/base/Log.h:53-63 | The loops over both lists make exactly the calls of `Dispatch`: every always-at-head outputter, then the normal outputters until the first false. |
| `Chain.Dispatch` | src/lib/base/Log.h:53-63 | One dispatch makes one call per always-at-head outputter, in order, then calls a front prefix of the normal list, in order, at most one call per normal outputter. |
| `Chain.AlwaysCalls` | src/lib/base/Log.h:61-63 | Every always-at-head outputter is called, in list order, with the dispatched level and message. |
| `Chain.NormalChain` | src/lib/base/Log.h:55-60 | The normal calls form a prefix of the list, in order. Every called outputter but the last returned true. The chain ends before the end of the list only right after an outputter returned false. |
| `Chain.NormalReached` | src/lib/base/Log.h:56-60 | A normal outputter is called iff every normal outputter before it returned true. |
| `Chain.StopsAtVeto` | src/lib/base/Log.h:56-60 | After a normal outputter returns false, no later normal outputter is called for that message. |
| `Chain.VetoExample` | src/lib/base/Log.h:55-60 | In the chain [o1, o2, o3], if o2 returns false, then o1 and o2 are called and o3 is not. |
| `Chain.AlwaysFirst` | src/lib/base/Log.h:61-63 | Every always-at-head outputter is called, in order, before any normal outputter, and the normal chain follows. |
| `Chain.OnlyNormalVerdictsMatter` | src/lib/base/Log.h:61-63 | What the always-at-head outputters return never changes the dispatch. Two oracles that agree on the normal outputters give the same calls. |
| `Chain.NormalChainAgrees` | src/lib/base/Log.h:56-60 | The normal chain depends only on the verdicts of the outputters in the normal list. |
| `Chain.DispatchCalls` | src/lib/base/Log.h:131 | Every call of a dispatch carries the dispatched level and message and goes to a listed outputter. |
| `Logging.Log.Print` | src/lib/base/Log.h:103-111 | A message whose decoded level is not Print and is above the threshold makes no calls. Otherwise the message is dispatched with the decoded level and the expanded template. It carries a file:line origin iff a file is given and the level is not Print. |
| `Logging.PrintAlwaysDelivered` | src/lib/base/Log.h:150-153 | A Print-tagged message passes the filter whatever the threshold, and it is rendered without a file:line origin even when a file is given. |
| `Logging.FilterMonotone` | src/lib/base/Log.h:86-88 | The filter rule `Passes`: a non-Print level above (less urgent than) the threshold never passes, and raising the threshold never drops a message that passed before. |
| `Marker.LevelChar` | src/lib/base/Log.h:190-194 | The level character is the level's offset from `'0'` (octal 060). |
| `Marker.Encode` | src/lib/base/Log.h:195-206 | Encoding a level equals the literal `CLOG_*` marker of that level followed by the template. |
| `Marker.Tagged` | src/lib/base/Log.h:190-195 | A format carries a marker iff it is `'@'`, `'z'` and some level character followed by a template, the shape every `CLOG_*` marker gives its format. |
| `Marker.Decode` | src/lib/base/Log.h:190-194 | The residual template is a suffix of the format. It is the whole format iff the format carries no marker. |
| `Marker.DecodeEncode` | src/lib/base/Log.h:190-206 | Round trip: decoding an encoded format gives back the level and the untouched template, even when the template itself starts with a marker. |
| `Marker.EncodeDecode` | src/lib/base/Log.h:190-206 | A tagged format whose level is in the table is exactly its marker followed by its residual template. |
| `Marker.MarkersDecode` | src/lib/base/Log.h:195-206 | Every `CLOG_*` marker decodes to its own level, and no two levels share a marker. |
| `Marker.TableEnds` | src/lib/base/Log.h:190-206 | `'/'` decodes to Print (−1), `'0'` to Crit (0) and `':'` to Debug5 (10). |
| `Marker.UntaggedIsInfo` | src/lib/base/Log.h:190-194 | A format without the `"@z"` prefix is all template, at level Info. The Info default is an assumption, recorded under "Left out" on the `Marker.Decode` line. |

## Left out

- The mutex and the thread-safety claims are left out. Each operation is modelled as atomic and sequential.
- The singleton `getInstance`, `s_log` and the `CLOG` macro are left out. The model is one `Log` object.
- The printf-style expansion of the arguments and the fixed-size buffer it writes into (truncation) are left out. The expansion is the opaque parameter `expand`.
- The exact text of the file:line prefix is left out, because it is produced in `Log.cpp`. The model records the prefix as the message's `Origin`.
- The concrete outputters (console, file and so on) are left out. Their `write` is the `Verdict` oracle, and `open`, `close` and `show` are not modelled.
- Deleting outputters in `pop_front` and in the destructor, and ownership of adopted outputters, are left out. `PopFront` only removes the entry from its list. The destructor is not modelled.
- The `LOG` / `LOGC` macro variants for `NOLOGGING` and `NDEBUG` are build configuration and are left out.
- The default threshold depends on `NDEBUG`, so it is a constructor parameter. The default console outputter appears only by its identity, the constructor's `console` parameter. What it writes is part of the `Verdict` oracle.
- The `Log(Log* src)` constructor and `getConsoleMaxLevel` are left out. Their behaviour is not documented beyond a constant.
- Whether C `char` is signed is platform-defined. `Decode` uses a character's unsigned value, so a level character above 127 decodes as if `char` were unsigned.
- Outputters are not checked to be listed only once, because `insert` does not check it. The lemmas about removal state that condition as a precondition.
- `Levels.Names`: the header never lists the names that `setFilter(const char*)` accepts. The table used here is an assumption taken from the `CLOG_*` macro suffixes (`CRIT` … `DEBUG5`). The real table is in `Log.cpp`, which is not part of this model.
  `PRINT` is left out of the table because Print is the one level the filter never compares (Log.h:152-153). It tags a message, but it does not stand for a threshold. A threshold of −1 can still be set with `SetFilter`.
- `Marker.Decode`: no range check or fallback is applied to the level character. The header says only that the level is that character minus `'0'` (Log.h:190-194). A character outside `'/'`..`':'` therefore yields an out-of-table level, and that level goes to the filter unchanged. For example, `"@zA…"` decodes to level 17 and is dropped under any threshold below 17, where a range-checked decoder would deliver it at a default level. The Info level given to a format without a marker is also an assumption, because the header says nothing about unmarked formats.
