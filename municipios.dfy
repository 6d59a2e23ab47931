/** The in-memory reference index of municipios.go: the states (unidades
    federativas) and municipalities (municípios) loaded once from two query
    results, the join that embeds each municipality's state, and the four
    read operations behind the HTTP handlers. */
module Municipios {
  import opened Wrappers
  import opened Decimal

  /** A state record. The fields are declared in the order code, name,
      abbreviation. */
  datatype UnidadeFederativa = UnidadeFederativa(codigoUF: int, nomeUF: string, siglaUF: string)

  /** A municipality record; `uf` is an embedded copy of its state. */
  datatype Municipio = Municipio(codigoMunicipio: int, nomeMunicipio: string, uf: UnidadeFederativa)

  /** One row of the state query, whose columns come in the order
      code, abbreviation, name. */
  datatype UFRow = UFRow(codigouf: int, siglauf: string, nomeuf: string)

  /** One row of the municipality query: code, name and the state's code. */
  datatype MunicipioRow = MunicipioRow(codigomunicipio: int, nomemunicipio: string, ufFk: int)

  // ---------------------------------------------------------------------------
  // Loading the states

  /** The states the row loop builds from `rows`. The row's columns are fed
      positionally into the record, so the abbreviation lands in `nomeUF`
      and the name in `siglaUF`. */
  function UFsFromRows(rows: seq<UFRow>): (ufs: seq<UnidadeFederativa>)
    ensures |ufs| == |rows|
    ensures forall k :: 0 <= k < |rows| ==>
      ufs[k].codigoUF == rows[k].codigouf && ufs[k].nomeUF == rows[k].siglauf && ufs[k].siglaUF == rows[k].nomeuf
  {
    if rows == [] then []
    else
      var r := rows[|rows| - 1];
      UFsFromRows(rows[..|rows| - 1]) + [UnidadeFederativa(r.codigouf, r.siglauf, r.nomeuf)]
  }

  /** Uniqueness: rows with distinct codes give states with distinct codes. */
  lemma {:induction false} UFsFromRowsDistinctCodes(rows: seq<UFRow>)
    requires forall i, j :: 0 <= i < j < |rows| ==> rows[i].codigouf != rows[j].codigouf
    ensures var ufs := UFsFromRows(rows);
            forall i, j :: 0 <= i < j < |ufs| ==> ufs[i].codigoUF != ufs[j].codigoUF
  {
  }

  // ---------------------------------------------------------------------------
  // Resolving a foreign key

  /** The first state, in slice order, whose code is `fk`; `None` when there is none. */
  function ResolveUF(ufs: seq<UnidadeFederativa>, fk: int): (r: Option<UnidadeFederativa>)
    ensures r.None? <==> forall k :: 0 <= k < |ufs| ==> ufs[k].codigoUF != fk
    ensures r.Some? ==> exists i :: 0 <= i < |ufs| && ufs[i] == r.value && r.value.codigoUF == fk &&
                                   forall j :: 0 <= j < i ==> ufs[j].codigoUF != fk
  {
    if ufs == [] then None
    else if ufs[0].codigoUF == fk then Some(ufs[0])
    else
      var r := ResolveUF(ufs[1..], fk);
      assert r.Some? ==> exists i :: 0 <= i < |ufs| && ufs[i] == r.value && forall j :: 0 <= j < i ==> ufs[j].codigoUF != fk by {
        if r.Some? {
          var i :| 0 <= i < |ufs[1..]| && ufs[1..][i] == r.value && r.value.codigoUF == fk &&
                   forall j :: 0 <= j < i ==> ufs[1..][j].codigoUF != fk;
          assert ufs[i + 1] == r.value;
          assert forall j :: 0 <= j < i + 1 ==> ufs[j].codigoUF != fk by {
            forall j | 0 <= j < i + 1 ensures ufs[j].codigoUF != fk {
              if j > 0 { assert ufs[j] == ufs[1..][j - 1]; }
            }
          }
        }
      }
      r
  }

  /** The state at the first position with code `fk` is the one it resolves to. */
  lemma {:induction false} ResolveUFFirst(ufs: seq<UnidadeFederativa>, fk: int, i: nat)
    requires i < |ufs| && ufs[i].codigoUF == fk
    requires forall k :: 0 <= k < i ==> ufs[k].codigoUF != fk
    ensures ResolveUF(ufs, fk) == Some(ufs[i])
  {
  }

  /** Some state (at any position) has code `fk`: the foreign key resolves. */
  predicate HasUFWithCode(ufs: seq<UnidadeFederativa>, fk: int) {
    exists u :: u in ufs && u.codigoUF == fk
  }

  /** Once a code resolves in `ufs`, appending further states does not change
      which state it resolves to. */
  lemma {:induction false} ResolveUFAppend(ufs: seq<UnidadeFederativa>, more: seq<UnidadeFederativa>, fk: int)
    requires ResolveUF(ufs, fk).Some?
    ensures ResolveUF(ufs + more, fk) == ResolveUF(ufs, fk)
  {
    if ufs[0].codigoUF != fk {
      assert (ufs + more)[1..] == ufs[1..] + more;
      ResolveUFAppend(ufs[1..], more, fk);
    }
  }

  // ---------------------------------------------------------------------------
  // Loading the municipalities

  /** The municipalities the row loop appends for `rows` against the states
      `ufs`: one per row whose foreign key resolves, embedding the state it
      resolves to; rows that do not resolve contribute nothing. */
  function Join(ufs: seq<UnidadeFederativa>, rows: seq<MunicipioRow>): seq<Municipio>
  {
    if rows == [] then []
    else
      var r := rows[|rows| - 1];
      Join(ufs, rows[..|rows| - 1]) +
        match ResolveUF(ufs, r.ufFk)
        case None => []
        case Some(u) => [Municipio(r.codigomunicipio, r.nomemunicipio, u)]
  }

  /** The rows whose foreign key resolves, in row order. */
  function Survivors(ufs: seq<UnidadeFederativa>, rows: seq<MunicipioRow>): (s: seq<MunicipioRow>)
    ensures forall r :: r in s ==> r in rows && HasUFWithCode(ufs, r.ufFk)
  {
    if rows == [] then []
    else
      var r := rows[|rows| - 1];
      var s := Survivors(ufs, rows[..|rows| - 1]) + if HasUFWithCode(ufs, r.ufFk) then [r] else [];
      assert forall x :: x in rows[..|rows| - 1] ==> x in rows;
      s
  }

  /** Every row whose foreign key resolves survives, as often as it occurs
      among the rows; every other row is gone. */
  lemma {:induction false} SurvivorsMultiplicity(ufs: seq<UnidadeFederativa>, rows: seq<MunicipioRow>)
    ensures forall r :: multiset(Survivors(ufs, rows))[r] == if HasUFWithCode(ufs, r.ufFk) then multiset(rows)[r] else 0
  {
    if rows != [] {
      var p, last := rows[..|rows| - 1], rows[|rows| - 1];
      SurvivorsMultiplicity(ufs, p);
      assert rows == p + [last];
      assert multiset(rows) == multiset(p) + multiset{last};
      var tail := if HasUFWithCode(ufs, last.ufFk) then [last] else [];
      assert Survivors(ufs, rows) == Survivors(ufs, p) + tail;
      assert multiset(Survivors(ufs, rows)) == multiset(Survivors(ufs, p)) + multiset(tail);
    }
  }

  /** The survivors of a concatenation are the survivors of each part, in order. */
  lemma {:induction false} SurvivorsAppend(ufs: seq<UnidadeFederativa>, a: seq<MunicipioRow>, b: seq<MunicipioRow>)
    ensures Survivors(ufs, a + b) == Survivors(ufs, a) + Survivors(ufs, b)
  {
    if b != [] {
      var r := b[|b| - 1];
      var tail := if HasUFWithCode(ufs, r.ufFk) then [r] else [];
      assert (a + b)[..|a + b| - 1] == a + b[..|b| - 1] && (a + b)[|a + b| - 1] == r;
      assert Survivors(ufs, a + b) == Survivors(ufs, a + b[..|b| - 1]) + tail;
      assert Survivors(ufs, b) == Survivors(ufs, b[..|b| - 1]) + tail;
      SurvivorsAppend(ufs, a, b[..|b| - 1]);
    } else {
      assert a + b == a;
    }
  }

  /** Join correctness: the join holds exactly one municipality per surviving
      row, in the same order, carrying that row's code and name and embedding
      the first state whose code is the row's foreign key. */
  lemma {:induction false} JoinSurvivors(ufs: seq<UnidadeFederativa>, rows: seq<MunicipioRow>)
    ensures var j, s := Join(ufs, rows), Survivors(ufs, rows);
            |j| == |s| &&
            forall k :: 0 <= k < |s| ==>
              j[k].codigoMunicipio == s[k].codigomunicipio && j[k].nomeMunicipio == s[k].nomemunicipio &&
              j[k].uf.codigoUF == s[k].ufFk && ResolveUF(ufs, s[k].ufFk) == Some(j[k].uf)
  {
    if rows != [] {
      var r := rows[|rows| - 1];
      JoinSurvivors(ufs, rows[..|rows| - 1]);
      assert ResolveUF(ufs, r.ufFk).Some? <==> HasUFWithCode(ufs, r.ufFk) by {
        if HasUFWithCode(ufs, r.ufFk) {
          var u :| u in ufs && u.codigoUF == r.ufFk;
          var k :| 0 <= k < |ufs| && ufs[k] == u;
        }
      }
    }
  }

  /** Every embedded state is one of the loaded states, has the row's foreign
      key as its code, and is the first state with that code. */
  lemma {:induction false} JoinEmbedsLoadedUnit(ufs: seq<UnidadeFederativa>, rows: seq<MunicipioRow>)
    ensures forall m :: m in Join(ufs, rows) ==>
      m.uf in ufs && ResolveUF(ufs, m.uf.codigoUF) == Some(m.uf) &&
      exists i :: 0 <= i < |rows| && rows[i].codigomunicipio == m.codigoMunicipio &&
                  rows[i].nomemunicipio == m.nomeMunicipio && rows[i].ufFk == m.uf.codigoUF
  {
    JoinSurvivors(ufs, rows);
    var j, s := Join(ufs, rows), Survivors(ufs, rows);
    forall m | m in j
      ensures m.uf in ufs && ResolveUF(ufs, m.uf.codigoUF) == Some(m.uf)
      ensures exists i :: 0 <= i < |rows| && rows[i].codigomunicipio == m.codigoMunicipio &&
                          rows[i].nomemunicipio == m.nomeMunicipio && rows[i].ufFk == m.uf.codigoUF
    {
      var k :| 0 <= k < |j| && j[k] == m;
      assert s[k] in s;
      var i :| 0 <= i < |rows| && rows[i] == s[k];
    }
  }

  /** Order preservation: joining a concatenation of row sequences is the
      concatenation of their joins. */
  lemma {:induction false} JoinAppend(ufs: seq<UnidadeFederativa>, a: seq<MunicipioRow>, b: seq<MunicipioRow>)
    ensures Join(ufs, a + b) == Join(ufs, a) + Join(ufs, b)
  {
    if b != [] {
      assert (a + b)[..|a + b| - 1] == a + b[..|b| - 1];
      JoinAppend(ufs, a, b[..|b| - 1]);
    } else {
      assert a + b == a;
    }
  }

  /** Drop on miss: a row whose foreign key matches no state, wherever it
      stands, changes nothing in the join. */
  lemma {:induction false} JoinDropsUnresolved(ufs: seq<UnidadeFederativa>, a: seq<MunicipioRow>, r: MunicipioRow, b: seq<MunicipioRow>)
    requires forall k :: 0 <= k < |ufs| ==> ufs[k].codigoUF != r.ufFk
    ensures Join(ufs, a + [r] + b) == Join(ufs, a + b)
  {
    assert ResolveUF(ufs, r.ufFk) == None;
    assert (a + [r])[..|a + [r]| - 1] == a;
    assert Join(ufs, a + [r]) == Join(ufs, a);
    JoinAppend(ufs, a + [r], b);
    JoinAppend(ufs, a, b);
  }

  /** No two records of `ms` share a municipality code. */
  predicate DistinctMunicipioCodes(ms: seq<Municipio>) {
    forall i, j :: 0 <= i < j < |ms| ==> ms[i].codigoMunicipio != ms[j].codigoMunicipio
  }

  /** No two rows share a municipality code. */
  predicate DistinctRowCodes(rows: seq<MunicipioRow>) {
    forall i, j :: 0 <= i < j < |rows| ==> rows[i].codigomunicipio != rows[j].codigomunicipio
  }

  /** Uniqueness: rows with distinct codes give municipalities with distinct codes. */
  lemma {:induction false} JoinDistinctCodes(ufs: seq<UnidadeFederativa>, rows: seq<MunicipioRow>)
    requires DistinctRowCodes(rows)
    ensures DistinctMunicipioCodes(Join(ufs, rows))
  {
    if rows != [] {
      var p, r := rows[..|rows| - 1], rows[|rows| - 1];
      JoinDistinctCodes(ufs, p);
      JoinEmbedsLoadedUnit(ufs, p);
      var j := Join(ufs, p);
      forall m | m in j ensures m.codigoMunicipio != r.codigomunicipio {
        var i :| 0 <= i < |p| && p[i].codigomunicipio == m.codigoMunicipio;
        assert p[i] == rows[i];
      }
    }
  }

  /** Every municipality of `ms` embeds the first state of `ufs` that has its
      state's code. */
  ghost predicate EmbedsFirstUnits(ufs: seq<UnidadeFederativa>, ms: seq<Municipio>) {
    forall m :: m in ms ==> ResolveUF(ufs, m.uf.codigoUF) == Some(m.uf)
  }

  /** Appending the join of any rows keeps `EmbedsFirstUnits`. */
  lemma {:induction false} EmbedsFirstUnitsJoin(ufs: seq<UnidadeFederativa>, ms: seq<Municipio>, rows: seq<MunicipioRow>)
    requires EmbedsFirstUnits(ufs, ms)
    ensures EmbedsFirstUnits(ufs, ms + Join(ufs, rows))
  {
    JoinEmbedsLoadedUnit(ufs, rows);
  }

  /** A row whose foreign key first matches the state at position `j` adds
      one municipality, embedding that state, to the join. */
  lemma {:induction false} JoinStepResolved(ufs: seq<UnidadeFederativa>, rows: seq<MunicipioRow>, i: nat, j: nat)
    requires i < |rows| && j < |ufs| && ufs[j].codigoUF == rows[i].ufFk
    requires forall k :: 0 <= k < j ==> ufs[k].codigoUF != rows[i].ufFk
    ensures ResolveUF(ufs, rows[i].ufFk) == Some(ufs[j])
    ensures Join(ufs, rows[..i + 1]) == Join(ufs, rows[..i]) + [Municipio(rows[i].codigomunicipio, rows[i].nomemunicipio, ufs[j])]
  {
    ResolveUFFirst(ufs, rows[i].ufFk, j);
    assert rows[..i + 1][..i] == rows[..i];
  }

  /** A row whose foreign key matches no state adds nothing to the join. */
  lemma {:induction false} JoinStepUnresolved(ufs: seq<UnidadeFederativa>, rows: seq<MunicipioRow>, i: nat)
    requires i < |rows|
    requires forall k :: 0 <= k < |ufs| ==> ufs[k].codigoUF != rows[i].ufFk
    ensures Join(ufs, rows[..i + 1]) == Join(ufs, rows[..i])
  {
    assert ResolveUF(ufs, rows[i].ufFk) == None;
    assert rows[..i + 1][..i] == rows[..i];
  }

  // ---------------------------------------------------------------------------
  // Lookups by textual key

  /** The position of the first element of `s` that satisfies `p`, or `|s|`
      when none does: where a linear scan that stops at its first match stops. */
  function FirstIndex<T>(s: seq<T>, p: T -> bool): (i: nat)
    ensures i <= |s|
    ensures forall k :: 0 <= k < i ==> !p(s[k])
    ensures i < |s| ==> p(s[i])
  {
    if s == [] then 0 else if p(s[0]) then 0 else 1 + FirstIndex(s[1..], p)
  }

  /** The first state, in slice order, whose code renders as `key`. */
  function UFPorCodigo(ufs: seq<UnidadeFederativa>, key: string): (r: Option<UnidadeFederativa>)
    ensures r.None? <==> forall k :: 0 <= k < |ufs| ==> Itoa(ufs[k].codigoUF) != key
    ensures r.Some? ==> exists i :: 0 <= i < |ufs| && ufs[i] == r.value && Itoa(r.value.codigoUF) == key &&
                                   forall j :: 0 <= j < i ==> Itoa(ufs[j].codigoUF) != key
  {
    var i := FirstIndex(ufs, (u: UnidadeFederativa) => Itoa(u.codigoUF) == key);
    if i < |ufs| then Some(ufs[i]) else None
  }

  /** The first municipality, in slice order, whose code renders as `key`. */
  function MunicipioPorCodigo(ms: seq<Municipio>, key: string): (r: Option<Municipio>)
    ensures r.None? <==> forall k :: 0 <= k < |ms| ==> Itoa(ms[k].codigoMunicipio) != key
    ensures r.Some? ==> exists i :: 0 <= i < |ms| && ms[i] == r.value && Itoa(r.value.codigoMunicipio) == key &&
                                   forall j :: 0 <= j < i ==> Itoa(ms[j].codigoMunicipio) != key
  {
    var i := FirstIndex(ms, (m: Municipio) => Itoa(m.codigoMunicipio) == key);
    if i < |ms| then Some(ms[i]) else None
  }

  /** The state at the first position whose code renders as `key` is the one found. */
  lemma {:induction false} UFPorCodigoFirst(ufs: seq<UnidadeFederativa>, key: string, i: nat)
    requires i < |ufs| && Itoa(ufs[i].codigoUF) == key
    requires forall k :: 0 <= k < i ==> Itoa(ufs[k].codigoUF) != key
    ensures UFPorCodigo(ufs, key) == Some(ufs[i])
  {
  }

  /** The municipality at the first position whose code renders as `key` is the one found. */
  lemma {:induction false} MunicipioPorCodigoFirst(ms: seq<Municipio>, key: string, i: nat)
    requires i < |ms| && Itoa(ms[i].codigoMunicipio) == key
    requires forall k :: 0 <= k < i ==> Itoa(ms[k].codigoMunicipio) != key
    ensures MunicipioPorCodigo(ms, key) == Some(ms[i])
  {
  }

  /** Lookup correctness for states: matching the rendered code against the
      key is resolving the number the key reads as, and finds nothing when
      the key is not a canonical rendering. */
  lemma {:induction false} UFPorCodigoNumeric(ufs: seq<UnidadeFederativa>, key: string)
    ensures UFPorCodigo(ufs, key) == match ParseCanonical(key)
                                     case None => None
                                     case Some(c) => ResolveUF(ufs, c)
  {
    forall k | 0 <= k < |ufs| ensures Itoa(ufs[k].codigoUF) == key <==> ParseCanonical(key) == Some(ufs[k].codigoUF) {
      ItoaMatches(ufs[k].codigoUF, key);
    }
    var r := UFPorCodigo(ufs, key);
    if r.Some? {
      var i :| 0 <= i < |ufs| && ufs[i] == r.value && Itoa(r.value.codigoUF) == key &&
               forall j :: 0 <= j < i ==> Itoa(ufs[j].codigoUF) != key;
      ResolveUFFirst(ufs, ufs[i].codigoUF, i);
    }
  }

  /** The first municipality, in slice order, whose code is the number `c`. */
  function MunicipioComCodigo(ms: seq<Municipio>, c: int): (r: Option<Municipio>)
    ensures r.None? <==> forall k :: 0 <= k < |ms| ==> ms[k].codigoMunicipio != c
    ensures r.Some? ==> exists i :: 0 <= i < |ms| && ms[i] == r.value && r.value.codigoMunicipio == c &&
                                   forall j :: 0 <= j < i ==> ms[j].codigoMunicipio != c
  {
    var i := FirstIndex(ms, (m: Municipio) => m.codigoMunicipio == c);
    if i < |ms| then Some(ms[i]) else None
  }

  /** The municipality at the first position with code `c` is the one found by number. */
  lemma {:induction false} MunicipioComCodigoFirst(ms: seq<Municipio>, c: int, i: nat)
    requires i < |ms| && ms[i].codigoMunicipio == c
    requires forall k :: 0 <= k < i ==> ms[k].codigoMunicipio != c
    ensures MunicipioComCodigo(ms, c) == Some(ms[i])
  {
  }

  /** Lookup correctness for municipalities: matching the rendered code against
      the key is finding by the number the key reads as, and finds nothing when
      the key is not a canonical rendering. */
  lemma {:induction false} MunicipioPorCodigoNumeric(ms: seq<Municipio>, key: string)
    ensures MunicipioPorCodigo(ms, key) == match ParseCanonical(key)
                                          case None => None
                                          case Some(c) => MunicipioComCodigo(ms, c)
  {
    forall k | 0 <= k < |ms| ensures Itoa(ms[k].codigoMunicipio) == key <==> ParseCanonical(key) == Some(ms[k].codigoMunicipio) {
      ItoaMatches(ms[k].codigoMunicipio, key);
    }
    var r := MunicipioPorCodigo(ms, key);
    if r.Some? {
      var i :| 0 <= i < |ms| && ms[i] == r.value && Itoa(r.value.codigoMunicipio) == key &&
               forall j :: 0 <= j < i ==> Itoa(ms[j].codigoMunicipio) != key;
      MunicipioComCodigoFirst(ms, ms[i].codigoMunicipio, i);
    }
  }

  /** A key the route `{codigo:[0-9]{2}}` admits. */
  predicate UFRouteKey(key: string) {
    |key| == 2 && AllDigits(key)
  }

  /** A key the route `{codigo:[0-9]{7}}` admits. */
  predicate MunicipioRouteKey(key: string) {
    |key| == 7 && AllDigits(key)
  }

  /** A two-digit state key starting with `0`, such as `05`, never finds a
      state, even when a state with code 5 is loaded. */
  lemma {:induction false} UFKeyWithLeadingZeroMisses(ufs: seq<UnidadeFederativa>, key: string)
    requires UFRouteKey(key) && key[0] == '0'
    ensures UFPorCodigo(ufs, key) == None
  {
  }

  /** A seven-digit municipality key starting with `0` never finds a municipality. */
  lemma {:induction false} MunicipioKeyWithLeadingZeroMisses(ms: seq<Municipio>, key: string)
    requires MunicipioRouteKey(key) && key[0] == '0'
    ensures MunicipioPorCodigo(ms, key) == None
  {
  }

  /** A two-digit state key not starting with `0` finds the first state whose
      code is the key's numeric value, if any. */
  lemma {:induction false} UFKeyLookupByValue(ufs: seq<UnidadeFederativa>, key: string)
    requires UFRouteKey(key) && key[0] != '0'
    ensures UFPorCodigo(ufs, key) == ResolveUF(ufs, Value(key))
  {
    UFPorCodigoNumeric(ufs, key);
  }

  /** A seven-digit municipality key not starting with `0` finds the first
      municipality whose code is the key's numeric value, if any. */
  lemma {:induction false} MunicipioKeyLookupByValue(ms: seq<Municipio>, key: string)
    requires MunicipioRouteKey(key) && key[0] != '0'
    ensures MunicipioPorCodigo(ms, key) == MunicipioComCodigo(ms, Value(key))
  {
    MunicipioPorCodigoNumeric(ms, key);
  }

  /** A worked load: state 35 with abbreviation `SP` and two municipality
      rows, one joining to it and one whose foreign key 999 matches no state.
      The state record carries the abbreviation in `nomeUF`, and the orphan
      row is dropped. */
  lemma {:induction false} ExampleLoad()
    ensures UFsFromRows([UFRow(35, "SP", "Sao Paulo")]) == [UnidadeFederativa(35, "SP", "Sao Paulo")]
    ensures Join([UnidadeFederativa(35, "SP", "Sao Paulo")],
                 [MunicipioRow(3550308, "Sao Paulo", 35), MunicipioRow(1234567, "Orfao", 999)])
            == [Municipio(3550308, "Sao Paulo", UnidadeFederativa(35, "SP", "Sao Paulo"))]
  {
    var ufs := [UnidadeFederativa(35, "SP", "Sao Paulo")];
    var rows := [MunicipioRow(3550308, "Sao Paulo", 35), MunicipioRow(1234567, "Orfao", 999)];
    JoinStepResolved(ufs, rows, 0, 0);
    JoinStepUnresolved(ufs, rows, 1);
    assert rows[..0] == [] && rows[..2] == rows;
  }

  /** Lookups on that load: keys `35` and `3550308` are found, `99` and `05` are not. */
  lemma {:induction false} ExampleLookups()
    ensures var sp := UnidadeFederativa(35, "SP", "Sao Paulo");
            UFPorCodigo([sp], "35") == Some(sp) &&
            UFPorCodigo([sp], "99") == None &&
            UFPorCodigo([sp], "05") == None &&
            MunicipioPorCodigo([Municipio(3550308, "Sao Paulo", sp)], "3550308") == Some(Municipio(3550308, "Sao Paulo", sp))
  {
    var sp := UnidadeFederativa(35, "SP", "Sao Paulo");
    assert Itoa(35) == "35" && Itoa(3550308) == "3550308";
    UFPorCodigoFirst([sp], "35", 0);
    UFKeyWithLeadingZeroMisses([sp], "05");
    MunicipioPorCodigoFirst([Municipio(3550308, "Sao Paulo", sp)], "3550308", 0);
  }

  // ---------------------------------------------------------------------------
  // The dataset

  /** The two package-level slices. After loading they are only read. */
  class ReferenceData {
    var unidadesFederativas: seq<UnidadeFederativa>
    var municipios: seq<Municipio>

    /** Every municipality embeds the first loaded state with its state's code. */
    ghost predicate Valid()
      reads this
    {
      EmbedsFirstUnits(unidadesFederativas, municipios)
    }

    /** Process start-up: the states are loaded, then the municipalities. */
    constructor Load(ufRows: seq<UFRow>, municipioRows: seq<MunicipioRow>)
      ensures Valid()
      ensures unidadesFederativas == UFsFromRows(ufRows)
      ensures municipios == Join(unidadesFederativas, municipioRows)
    {
      unidadesFederativas := [];
      municipios := [];
      new;
      PopularUnidadesFederativas(ufRows);
      PopularMunicipios(municipioRows);
    }

    /** Appends one state per row, in row order. */
    method PopularUnidadesFederativas(rows: seq<UFRow>)
      requires Valid()
      modifies this
      ensures Valid()
      ensures unidadesFederativas == old(unidadesFederativas) + UFsFromRows(rows)
      ensures municipios == old(municipios)
    {
      for i := 0 to |rows|
        invariant Valid()
        invariant unidadesFederativas == old(unidadesFederativas) + UFsFromRows(rows[..i])
        invariant municipios == old(municipios)
      {
        var codigo, sigla, nome := rows[i].codigouf, rows[i].siglauf, rows[i].nomeuf;
        ghost var before := unidadesFederativas;
        unidadesFederativas := unidadesFederativas + [UnidadeFederativa(codigo, sigla, nome)];
        forall m | m in municipios ensures ResolveUF(unidadesFederativas, m.uf.codigoUF) == Some(m.uf) {
          ResolveUFAppend(before, [UnidadeFederativa(codigo, sigla, nome)], m.uf.codigoUF);
        }
        assert rows[..i + 1][..i] == rows[..i];
      }
      assert rows[..|rows|] == rows;
    }

    /** For each row, scans the states for the first whose code is the row's
        foreign key and appends a municipality embedding it; a row with no
        such state is skipped. */
    method PopularMunicipios(rows: seq<MunicipioRow>)
      requires Valid()
      modifies this
      ensures Valid()
      ensures unidadesFederativas == old(unidadesFederativas)
      ensures municipios == old(municipios) + Join(unidadesFederativas, rows)
    {
      var ufs := unidadesFederativas;
      ghost var start := municipios;
      for i := 0 to |rows|
        invariant unidadesFederativas == ufs
        invariant municipios == start + Join(ufs, rows[..i])
      {
        var codigo, nome, ufFk := rows[i].codigomunicipio, rows[i].nomemunicipio, rows[i].ufFk;
        var j := 0;
        while j < |ufs|
          invariant 0 <= j <= |ufs|
          invariant forall k :: 0 <= k < j ==> ufs[k].codigoUF != ufFk
          invariant unidadesFederativas == ufs && municipios == start + Join(ufs, rows[..i])
        {
          var uf := ufs[j];
          if uf.codigoUF == ufFk {
            JoinStepResolved(ufs, rows, i, j);
            municipios := municipios + [Municipio(codigo, nome, uf)];
            assert municipios == start + (Join(ufs, rows[..i]) + [Municipio(codigo, nome, uf)]);
            break;
          }
          j := j + 1;
        }
        if j == |ufs| {
          JoinStepUnresolved(ufs, rows, i);
        }
      }
      assert rows[..|rows|] == rows;
      EmbedsFirstUnitsJoin(unidadesFederativas, old(municipios), rows);
    }

    /** The state listing: the slice exactly as loaded. */
    method GetUFs() returns (ufs: seq<UnidadeFederativa>)
      ensures ufs == unidadesFederativas
    {
      ufs := unidadesFederativas;
    }

    /** The state lookup: the first state whose rendered code equals `key`,
        or `None` for the JSON `null`. */
    method GetUFsPorCodigo(key: string) returns (r: Option<UnidadeFederativa>)
      ensures r == UFPorCodigo(unidadesFederativas, key)
    {
      for i := 0 to |unidadesFederativas|
        invariant forall k :: 0 <= k < i ==> Itoa(unidadesFederativas[k].codigoUF) != key
      {
        var uf := unidadesFederativas[i];
        if Itoa(uf.codigoUF) == key {
          UFPorCodigoFirst(unidadesFederativas, key, i);
          return Some(uf);
        }
      }
      return None;
    }

    /** The municipality listing: the slice exactly as loaded. */
    method GetMunicipios() returns (ms: seq<Municipio>)
      ensures ms == municipios
    {
      ms := municipios;
    }

    /** The municipality lookup: the first municipality whose rendered code
        equals `key`, or `None` for the JSON `null`. */
    method GetMunicipiosPorCodigo(key: string) returns (r: Option<Municipio>)
      ensures r == MunicipioPorCodigo(municipios, key)
    {
      for i := 0 to |municipios|
        invariant forall k :: 0 <= k < i ==> Itoa(municipios[k].codigoMunicipio) != key
      {
        var municipio := municipios[i];
        if Itoa(municipio.codigoMunicipio) == key {
          MunicipioPorCodigoFirst(municipios, key, i);
          return Some(municipio);
        }
      }
      return None;
    }
  }
}
