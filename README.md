# Top Domains report — Dafny model

This project models the data side of the dashboard's "Top Permitted Domains"
report in the Pi-hole web interface:

- `transformData` turns the API payload `{total_queries, top_domains}` into the
  dataset `{totalQueries, topDomains}` that the table works on;
- `generateRows` turns that dataset into one table row per domain, keyed and
  labelled by the domain, showing its hit count and a frequency bar whose
  width is the count's share of `totalQueries`, in percent;
- the configuration handed to the generic table: the initial empty dataset and
  the emptiness test `topDomains.length === 0`;
- the choice of fetch: the range-scoped call `getTopDomainsDb(range)` when a
  time range is selected, the default `getTopDomains()` otherwise.

Everything in the source is pure, so the model is datatypes, functions and
lemmas (module `TopDomains` in `TopDomains.dfy`). `Wrappers.dfy` holds the
`Option` type used for the possibly absent range, and `TimeRangeContext.dfy`
the shape of the selected range. A row is abstract: key, domain cell, count
and the exact percentage as a `real`, not the rendered markup.

Only the two top-level fields are renamed (`total_queries` to `totalQueries`,
`top_domains` to `topDomains`); the items keep `domain` and `count`.

## Model

| member | source | states |
|---|---|---|
| `TopDomains.TransformData` | src/components/dashboard/TopDomains.tsx:29-32 | the payload can be recovered from the dataset: only the two top-level fields are renamed and nothing is lost |
| `TopDomains.TransformDataBijective` | src/components/dashboard/TopDomains.tsx:29-32 | the transform and its inverse undo each other in both directions, so each dataset comes from exactly one payload |
| `TopDomains.TransformDataKeepsItems` | src/components/dashboard/TopDomains.tsx:30-31 | `totalQueries` equals `total_queries`; `topDomains` has the same length and order as `top_domains`, each item with the same `domain` and `count` |
| `TopDomains.Percentage` | src/components/dashboard/TopDomains.tsx:44 | the percentage times the total equals the count times 100; it is non-negative and at most 100 when the count is at most the total |
| `TopDomains.RowFor` | src/components/dashboard/TopDomains.tsx:43-65 | the row for one item is keyed and labelled by its domain, shows its count, and its percentage times the total equals the count times 100, within 0 to 100 when the count is at most the total |
| `TopDomains.GenerateRows` | src/components/dashboard/TopDomains.tsx:40-67 | exactly one row per item, in the items' order, row i built from item i and the dataset's total; an empty list needs no positive total and yields no rows |
| `TopDomains.GenerateRowsAt` | src/components/dashboard/TopDomains.tsx:43-60 | row i has key and domain cell equal to item i's domain, shows item i's count, and its percentage is count / totalQueries * 100 |
| `TopDomains.GenerateRowsPercentagesBounded` | src/components/dashboard/TopDomains.tsx:44-60 | when every count is at most the total, every bar width lies between 0 and 100 percent |
| `TopDomains.GenerateRowsAppend` | src/components/dashboard/TopDomains.tsx:43 | rows of a concatenated list are the rows of each part, concatenated: each row depends only on its own item and the total |
| `TopDomains.GenerateRowsKeysDistinct` | src/components/dashboard/TopDomains.tsx:47 | when the domains are pairwise distinct, so are the row keys |
| `TopDomains.PercentageSumScales` | src/components/dashboard/TopDomains.tsx:44 | the sum of all row percentages times `totalQueries` equals the sum of the item counts times 100: the denominator is the dataset's total, not the sum of the counts |
| `TopDomains.PercentagesSumTo100Iff` | src/components/dashboard/TopDomains.tsx:44 | the row percentages add up to exactly 100 if and only if the item counts add up to `totalQueries` |
| `TopDomains.IsEmpty` | src/components/dashboard/TopDomains.tsx:83 | the emptiness test holds exactly when no item occurs in `topDomains`, whatever the total |
| `TopDomains.InitialData` | src/components/dashboard/TopDomains.tsx:77-80 | the initial dataset has total 0, is empty by the table's emptiness test and renders no rows |
| `TopDomains.IsEmptyIffNoRows` | src/components/dashboard/TopDomains.tsx:83 | the emptiness test holds exactly when the dataset renders no rows, and changing `totalQueries` does not change it |
| `TopDomains.SelectApiCall` | src/components/dashboard/TopDomains.tsx:95-98 | the range-scoped call is chosen exactly when a range is present, and it carries exactly that range; otherwise the default call |
| `TopDomains.SelectApiCallInjective` | src/components/dashboard/TopDomains.tsx:95-98 | two observations select the same call if and only if they are the same (absent, or the same range) |
| `TopDomains.PipelineRows` | src/components/dashboard/TopDomains.tsx:84-86 | the rows shown for a payload, after the transform and row generation, follow the payload's list in length and order, with shares taken against the payload's total |
| `TopDomains.TwoDomainExample` | src/components/dashboard/TopDomains.tsx:29-67 | a payload of total 10 with `a.com` (7) and `b.com` (3) renders rows with 70 and 30 percent, in that order |

## Left out

- JSX and React rendering: the `<tr>`/`<td>` markup, CSS classes and styles, the `withNamespaces` wrapper and the `TimeRangeContext.Consumer` plumbing. Only the contents of a row are modelled.
- Text formatting: `toLocaleString`, `toFixed(1)` and the translation function `t(...)`, including the title, header labels and empty-state message they produce. These are foreign library calls; the percentage is kept as an exact `real`, not its rendered text.
- Floating point: counts and the total are unbounded naturals and the percentage is an exact rational. JavaScript `number` rounding is not modelled.
- TopDomains.GenerateRows: requires a positive `totalQueries` whenever items are present. With a zero total and items the source divides by zero and shows `NaN`/`Infinity`, which is not modelled.
- The API calls `api.getTopDomains` and `api.getTopDomainsDb`, the promise lifecycle, and the table shell `TopTable` with its loading and error sequencing. These are network I/O and a component outside this model; the calls appear only as the tags `GetTopDomains` and `GetTopDomainsDb(range)`.
- TimeRangeContext.tsx is not part of this model. The selected range is modelled as a pair of integer timestamps, and only its presence and identity matter here.
- The preference store (`loadInitialPreferences`, `defaultPreferences`) is not modelled: it is local-storage and JSON I/O, and its implementation is not among the modelled files.
