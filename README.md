# Translation hook of the France wine-regions dashboard, in Dafny

The dashboard translates its labels with the `useTranslation` hook. The hook holds one
object literal of translations per locale (en, fr, es), each a tree of string leaves and
nested objects. It keeps the current language as React state, starting in English. Its
`t(key)` function splits a dotted key on `.`, descends one property per segment from
the current locale's table (`value?.[k]`), and returns the value it reaches unless that
value is falsy, in which case it returns the key itself (`value || key`).

The model has five modules:

- `Paths` (`paths.dfy`) covers JavaScript's `split('.')` for a one-character separator.
  A key always has at least one segment, and empty segments are kept. The module proves
  that `Split` inverts `Join`, and how leading, trailing and doubled separators split.
- `Tree` (`tree.dfy`) represents a translation value as `Leaf(text)` or
  `Branch(props)`. An object's own properties are kept in the order they are written,
  and `Get` lets the last written one win, as an object literal does. The module also
  holds:
  - `Step` (one `value?.[k]`) and `Lookup` (a whole path);
  - the invariants `WellFormed` (no empty text, no empty key) and `SameShape` (same keys
    in the same places, and a leaf where the other tree has a leaf);
  - the lemmas that connect these.
- `Tables` (`tables.dfy`) holds the three locale tables, copied text for text from the
  source. Each table is the concatenation (`Flatten`) of its blank-line-separated
  blocks. Long texts are written as several literals joined with `+`, which denote the
  same strings. `TablesAgree` and `TablesSameShape` prove two facts about the tables:
  - every table is well-formed;
  - all three tables have the same shape.
- `UseTranslation` (`use_translation.dfy`) models the hook as the class `Localizer`:
  - `translations` is the per-locale table, which the constructor sets to `Table`;
  - `language` is the `useState` cell;
  - `SetLanguage` is the state setter;
  - `T` is the lookup loop, proved against the specification function `Resolve`.

  The module also has the generic lemmas about `Resolve`: a found path is returned,
  a missing segment gives the key, an empty segment gives the key, and tables of the
  same shape give answers of the same shape.
- `TableLookups` (`table_lookups.dfy`) states what `t` returns for particular keys
  against the shipped tables. It also states `LocalesAgree`: switching locale never turns
  a found key into a fallback or back, and never turns a string into an object.

A natural reading of the hook is that any path not ending at a string "falls back to
the key". The code differs: `value || key` returns any truthy value, and a nested object is truthy, so `t("regions")` returns the
`regions` object even though `t` is declared to return a string. The model follows the
code: `OrKey` returns a `Branch` unchanged, and `RegionsIsSubtree` states this for
`regions`.

## Model

| member | source | states |
|---|---|---|
| Paths.Split | src/hooks/useTranslation.ts:258 | `key.split('.')` always has at least one segment, even for the empty key |
| Paths.SplitSegments | src/hooks/useTranslation.ts:258 | no segment contains '.' |
| Paths.JoinSplit | src/hooks/useTranslation.ts:258 | joining the segments with '.' gives the key back, so no character of the key is lost or added |
| Paths.SplitJoin | src/hooks/useTranslation.ts:258 | splitting undoes joining for any non-empty list of dot-free segments, so a dotted path reaches exactly the segments it names |
| Paths.SplitNoSeparator | src/hooks/useTranslation.ts:258 | a key with no '.' is a single segment, itself |
| Paths.SplitAppendSeparator | src/hooks/useTranslation.ts:258 | the segments of `s + "." + t` are those of `s` followed by those of `t` |
| Paths.SplitLeadingSeparator | src/hooks/useTranslation.ts:258 | a leading '.' yields an empty first segment, then the segments of the rest |
| Paths.SplitTrailingSeparator | src/hooks/useTranslation.ts:258 | a trailing '.' yields an empty last segment |
| Paths.SplitDoubledSeparator | src/hooks/useTranslation.ts:258 | ".." yields an empty segment between the segments on either side |
| Tree.Get | src/hooks/useTranslation.ts:262 | an object's property `k` is found exactly when `k` is one of its own keys |
| Tree.GetConcat | src/hooks/useTranslation.ts:6-252 | in an object literal, a property written later shadows one with the same key written earlier |
| Tree.GetFlatten | src/hooks/useTranslation.ts:7-87 | a key written in one block of a table and in no later block is found with that block's value |
| Tree.GetFlattenAbsent | src/hooks/useTranslation.ts:7-87 | a key written in no block of a table is not a property of the table |
| Tree.GetFlattenFirst | src/hooks/useTranslation.ts:7-87 | the first property of a block, not repeated after it, is found with its own value |
| Tree.LookupAppend | src/hooks/useTranslation.ts:261-263 | descending along `p + q` is descending along `p`, then along `q` from where `p` ends, and undefined stays undefined |
| Tree.LookupSnoc | src/hooks/useTranslation.ts:262 | one more segment is one more `value?.[k]` step on the value reached so far |
| Tree.LookupAbsentPrefix | src/hooks/useTranslation.ts:262 | once a prefix of the path gives undefined, every longer path does too |
| Tree.LookupSameShape | src/hooks/useTranslation.ts:259-263 | trees of the same shape resolve exactly the same paths, to values of the same shape |
| Tree.LookupWellFormed | src/hooks/useTranslation.ts:259-263 | in a tree without empty texts or keys, a string reached by a path is never empty |
| Tree.LookupEmptySegment | src/hooks/useTranslation.ts:258-263 | in a tree without empty keys, a path with an empty segment reaches undefined |
| Tables.TablesAgree | src/hooks/useTranslation.ts:6-252 | every locale table has no empty text or key, and has the same keys in the same places as the en table |
| Tables.TablesSameShape | src/hooks/useTranslation.ts:6-252 | any two locale tables are well-formed and have the same shape |
| UseTranslation.OrKey | src/hooks/useTranslation.ts:265 | `value \|\| key`: undefined and the empty string give the key; a non-empty string or an object is returned unchanged |
| UseTranslation.Localizer.constructor | src/hooks/useTranslation.ts:255 | a new hook reads the shipped tables and starts in English |
| UseTranslation.Localizer.SetLanguage | src/hooks/useTranslation.ts:255 | the setter makes the given locale current, for any locale, whatever came before |
| UseTranslation.Localizer.T | src/hooks/useTranslation.ts:257-266 | the loop returns exactly `Resolve` of the key against the current locale's table, and changes nothing |
| UseTranslation.RepeatedLookup | src/hooks/useTranslation.ts:257-266 | two calls of `t` with no language change between them return the same value |
| UseTranslation.SwitchAway | src/hooks/useTranslation.ts:255-268 | after `setLanguage(a)`, `setLanguage(b)`, `setLanguage(a)`, `t` answers exactly as after `setLanguage(a)` alone |
| UseTranslation.ResolveFound | src/hooks/useTranslation.ts:257-266 | in a well-formed table, a path that resolves is returned as resolved and never replaced by the key |
| UseTranslation.ResolveMissing | src/hooks/useTranslation.ts:261-265 | if any prefix of the segments is missing, `t` returns the key verbatim |
| UseTranslation.ResolveEmptySegment | src/hooks/useTranslation.ts:258-265 | in a well-formed table, a key with an empty segment gives the key back |
| UseTranslation.ResolveMalformedKeys | src/hooks/useTranslation.ts:258-265 | the empty key and keys with a leading, trailing or doubled '.' give themselves back |
| UseTranslation.ResolveSameShape | src/hooks/useTranslation.ts:257-266 | two well-formed tables of the same shape agree on whether a key is found; when it is not, both return the key; when it is, each returns its own value, and the two values have the same shape |
| TableLookups.RegionInEnglish | src/hooks/useTranslation.ts:14 | `t("region")` in en is "Region" |
| TableLookups.RegionInFrench | src/hooks/useTranslation.ts:96 | `t("region")` in fr is "Région" |
| TableLookups.RegionInSpanish | src/hooks/useTranslation.ts:178 | `t("region")` in es is "Región" |
| TableLookups.RegionsIsSubtree | src/hooks/useTranslation.ts:25-34 | `t("regions")` in en returns the nested regions object, not the key |
| TableLookups.AlsaceInFrench | src/hooks/useTranslation.ts:107-108 | `t("regions.alsace")` in fr is "Vins blancs premium & circuits cyclables" |
| TableLookups.MissingRegion | src/hooks/useTranslation.ts:25-34 | `t("regions.paris")` in en returns "regions.paris": the first segment exists, the second does not |
| TableLookups.LocalesAgree | src/hooks/useTranslation.ts:6-266 | for any two locales and any key: found in one iff found in the other; missing gives the key in every locale; a string in one locale is a non-empty string, returned as such, in every other |

## Left out

- JavaScript's property lookup on strings and on inherited members is not modelled.
  Descending into a string gives undefined in the model, but in JavaScript
  `t("title.length")` reaches a number and `t("title.0")` reaches a character, and
  keys such as `constructor` or `toString` reach `Object.prototype` members. The
  tables' own keys never collide with these.
- The React mechanics of `useState` are not modelled: re-rendering, closures capturing
  a stale `language`, and the returned `{ language, setLanguage, t }` record. The
  hook instance is the `Localizer` object, and the closures are its methods.
- Localizer.T: its declared result type in the source is `string`. The model returns a
  `Node`, because the code returns the nested object when a key names one.
- The concrete lookups in `TableLookups` cover only the keys named there. The
  properties of every other key follow from the generic lemmas together with
  `TablesAgree`, and are not stated key by key.
- `src/components/FranceConvergenceDashboard.tsx` (the dashboard that calls `t`) is
  not part of this model. Neither are its score, colour and risk-level helpers
  (`calculateCompositeScores`, `getVulnerabilityColor`, `getRiskLevel`).
- No `InvalidLocale` error exists for an unknown locale. `Language` is a closed datatype of three
  locales, as the TypeScript type makes it, so no other value can be set.
