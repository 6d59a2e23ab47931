# Reference index of states and municipalities

This project is a Dafny model of the in-memory reference index of `municipios.go`. That index backs a small read-only HTTP service for the states (unidades federativas) and municipalities (municípios) of Brazil. It works as follows:

- At start-up the state rows are loaded in query order into the slice `UnidadesFederativas`.
- Then each municipality row is joined to a state. The join scans the loaded states linearly for the first state whose code equals the row's foreign key. On a match it appends a `municipio` that embeds a copy of that state. A row whose key resolves nothing is silently dropped.
- Four handlers then only read the two slices. Two list them whole. Two scan for the first record whose code, rendered by `strconv.Itoa`, equals the key in the URL path, and answer JSON `null` when nothing matches.

Layout:

- `wrappers.dfy` (module `Wrappers`) holds `Option`. `None` stands for the `null` answer.
- `decimal.dfy` (module `Decimal`) holds `Itoa`, the Go decimal rendering: no leading zeros, and a `-` in front of a negative number. It also holds `ParseCanonical`, an independent reader of such strings. The two are proved inverse, so comparing `Itoa(code)` with a key is the same as comparing numbers when the key is canonical, and it fails for every other key.
- `municipios.dfy` (module `Municipios`) holds:
  - the records and the query rows;
  - the specification functions of the two loops (`UFsFromRows`, `ResolveUF`, `Join`) and of the two lookups (`UFPorCodigo`, `MunicipioPorCodigo`, both built on `FirstIndex`, the stopping point of a first-match scan);
  - lemmas about those functions;
  - the class `ReferenceData`. Its two `seq` fields are the package-level slices. Its loader methods run the source's loops, nested loop and `break` included. Its lookup methods scan with early return.

`ReferenceData.Valid()` is the invariant both loaders keep: every loaded municipality embeds the first loaded state that has its state's code.

The positional record literal is kept as written. The state query returns code, abbreviation and name in that order (`municipios.go:42`). They are fed positionally into a record whose fields are declared as code, name, abbreviation (`municipios.go:25-29`, `municipios.go:55`). So in the model, as in the code, `nomeUF` holds the abbreviation column and `siglaUF` the name column. This is evidently not what the record declares: its field names `NomeUF` and `SiglaUF`, and their JSON tags `nomeUF` and `siglaUF` (`municipios.go:25-29`), promise a name and an abbreviation, while line 55 fills them the other way round. The model follows the code as written.

## Model

| member | source | states |
|---|---|---|
| `Municipios.UFsFromRows` | municipios.go:47-56 | one state per row, same length and same order; field k has the row's code, `nomeUF` holds the row's abbreviation column and `siglaUF` its name column |
| `Municipios.ResolveUF` | municipios.go:77-81 | result is absent exactly when no loaded state has the foreign key as code; otherwise it is the state at the first position with that code |
| `Municipios.ResolveUFAppend` | municipios.go:55 | appending states never changes which state an already-resolving code resolves to |
| `Municipios.UFsFromRowsDistinctCodes` | municipios.go:47-56 | rows with pairwise distinct state codes give states with pairwise distinct codes |
| `Municipios.Join` | municipios.go:69-83 | the municipalities the row loop appends; its meaning is stated by `JoinSurvivors`, `JoinEmbedsLoadedUnit`, `JoinAppend` and `JoinDropsUnresolved` |
| `Municipios.Survivors` | municipios.go:69-83 | the surviving rows are rows of the input, each with a foreign key some loaded state carries |
| `Municipios.SurvivorsMultiplicity` | municipios.go:69-83 | every row whose foreign key resolves survives exactly as often as it occurs among the rows, and no other row survives |
| `Municipios.SurvivorsAppend` | municipios.go:69-83 | the survivors of a concatenation are the survivors of each part, in order |
| `Municipios.JoinSurvivors` | municipios.go:69-83 | the join has exactly one municipality per surviving row, in row order, with the row's code and name, embedding the first state whose code is the row's foreign key |
| `Municipios.JoinEmbedsLoadedUnit` | municipios.go:73-81 | every embedded state is an element of the loaded states, is the first with its code, and that code is the foreign key of a source row with the municipality's code and name |
| `Municipios.JoinAppend` | municipios.go:69-83 | the join of concatenated row sequences is the concatenation of the joins: rows are handled independently and keep their relative order |
| `Municipios.JoinDropsUnresolved` | municipios.go:77-82 | a row whose foreign key matches no state, wherever it stands, leaves the join unchanged and raises nothing |
| `Municipios.JoinDistinctCodes` | municipios.go:69-83 | rows with pairwise distinct codes give municipalities with pairwise distinct codes |
| `Municipios.FirstIndex` | municipios.go:105-110 | the position where a scan that stops at its first match stops: no earlier element matches, and the element there matches unless the scan ran off the end |
| `Municipios.UFPorCodigo` | municipios.go:105-111 | result is absent exactly when no state's rendered code equals the key; otherwise it is the state at the first position whose rendered code equals the key |
| `Municipios.MunicipioPorCodigo` | municipios.go:120-126 | the same first-match and absent-iff-none statement over the municipalities' codes |
| `Municipios.UFPorCodigoNumeric` | municipios.go:106 | the textual lookup equals resolving the number the key reads as, and is absent for a key that is not a canonical decimal rendering |
| `Municipios.MunicipioComCodigo` | municipios.go:120-126 | the numeric reference for the municipality lookup: absent exactly when no municipality has code c; otherwise the first one with code c |
| `Municipios.MunicipioPorCodigoNumeric` | municipios.go:121 | the textual lookup equals finding by the number the key reads as, and is absent for a key that is not a canonical decimal rendering |
| `Municipios.UFKeyWithLeadingZeroMisses` | municipios.go:131 | a two-digit key starting with `0` (such as `05`) finds no state whatever states are loaded |
| `Municipios.MunicipioKeyWithLeadingZeroMisses` | municipios.go:133 | a seven-digit key starting with `0` finds no municipality whatever is loaded |
| `Municipios.UFKeyLookupByValue` | municipios.go:105-111 | a two-digit key not starting with `0` finds the first state whose code is the key's numeric value |
| `Municipios.MunicipioKeyLookupByValue` | municipios.go:120-126 | a seven-digit key not starting with `0` finds the first municipality whose code is the key's numeric value |
| `Municipios.UFRouteKey` | municipios.go:131 | the keys the state route admits: exactly two ASCII digits |
| `Municipios.MunicipioRouteKey` | municipios.go:133 | the keys the municipality route admits: exactly seven ASCII digits |
| `Municipios.ExampleLoad` | municipios.go:47-83 | a concrete load: the row for state 35 with abbreviation SP gives a record whose `nomeUF` is SP; of two municipality rows, the one with key 35 joins and the orphan with key 999 is dropped |
| `Municipios.ExampleLookups` | municipios.go:105-126 | on that load, keys `35` and `3550308` are found and `99` and `05` are not |
| `Municipios.JoinStepResolved` | municipios.go:77-80 | a row whose foreign key first matches the state at position j adds exactly one municipality, embedding that state |
| `Municipios.JoinStepUnresolved` | municipios.go:77-82 | a row whose foreign key matches no state adds nothing |
| `Municipios.EmbedsFirstUnitsJoin` | municipios.go:77-81 | appending a join keeps every loaded municipality embedding the first state with its code |
| `Municipios.ReferenceData.Valid` | municipios.go:77-81 | the invariant both loaders keep: every loaded municipality embeds the first loaded state with its state's code |
| `Municipios.ReferenceData.Load` | municipios.go:90-97 | start-up loads the states, then the municipalities: states are the rows' states, municipalities are their join against them, and the invariant holds |
| `Municipios.ReferenceData.PopularUnidadesFederativas` | municipios.go:41-61 | the old states are a preserved prefix, followed by one state per row in row order; municipalities unchanged; invariant kept |
| `Municipios.ReferenceData.PopularMunicipios` | municipios.go:63-88 | the old municipalities are a preserved prefix, followed by the join of the rows against the (unchanged) states; invariant kept |
| `Municipios.ReferenceData.GetUFs` | municipios.go:99-101 | returns the state slice exactly as loaded and changes nothing |
| `Municipios.ReferenceData.GetUFsPorCodigo` | municipios.go:103-112 | returns the first state whose rendered code is the key, or absent when there is none; changes nothing |
| `Municipios.ReferenceData.GetMunicipios` | municipios.go:114-116 | returns the municipality slice exactly as loaded and changes nothing |
| `Municipios.ReferenceData.GetMunicipiosPorCodigo` | municipios.go:118-127 | returns the first municipality whose rendered code is the key, or absent when there is none; changes nothing |
| `Decimal.Digits` | municipios.go:106 | the rendering of a natural number is a non-empty digit string with no leading zero; it starts with `0` exactly when the number is 0 |
| `Decimal.Itoa` | municipios.go:106 | `strconv.Itoa`: always non-empty; its meaning is stated by `ParseItoa`, `ItoaParse` and `ItoaMatches` against the independent reader `ParseCanonical` |
| `Decimal.ParseItoa` | municipios.go:106 | reading back the rendering of any integer gives that integer |
| `Decimal.ItoaParse` | municipios.go:121 | any string that reads back as an integer is exactly that integer's rendering |
| `Decimal.ItoaMatches` | municipios.go:106 | `Itoa(i) == s` holds if and only if `s` reads back as `i` |
| `Decimal.ItoaInjective` | municipios.go:121 | two integers render alike if and only if they are equal |
| `Decimal.LeadingZeroNeverRendered` | municipios.go:131-133 | no integer renders as a digit string of length two or more that starts with `0` |

The read methods have no `modifies` clause, so they cannot change either slice. Repeated calls on the same dataset therefore return equal results.

## Left out

- The database (`abrirConexao`, `sql.Open`, `db.Query`, `rows.Scan`, `rows.Err`, `rows.Close`): the two query results are given as sequences of rows.
- `log.Fatal` and `log.Panic` on a failed query or scan: the model assumes loading succeeded, so the row sequences are the complete results.
- JSON encoding and the `http.ResponseWriter`/`*http.Request` plumbing: handlers return `Option` or `seq` values instead of writing JSON; `None` is the `null` body. When a table is empty its slice stays nil, and the encoder writes `null` for a nil slice or a pointer to one (`municipios.go:100`, `municipios.go:115`). The listing methods return the empty sequence instead, so the model does not tell an empty listing's `null` from `[]`.
- `gorilla/mux` routing, the duplicate registration under `/api` and `/api/v1`, `router.Headers`, `main` and `ListenAndServe`: transport wiring on a foreign library. Only the key shapes of the two routes (exactly 2 or exactly 7 ASCII digits) are kept, as `UFRouteKey` and `MunicipioRouteKey`.
- Concurrent handler execution: after loading, the slices are only read, so the model reads them sequentially.
- The Go `init` mechanism: `ReferenceData.Load` starts from empty slices and calls the two loaders in order.
- Go's 64-bit `int`: codes are unbounded integers. Every value a 64-bit code can take is covered, and `Itoa` renders it the same way.
