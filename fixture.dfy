/** The sample cohort "Prueba" that the default constructor of the cohort builds, and
    what the ledger answers about it: each answer is derived from the general lemmas,
    the method contracts and lemmas that unroll the folds over the sample data. */
module Prueba {
  import opened Java
  import opened Scans
  import opened Asignaturas
  import opened Grupos

  // Unrolled folds over the short literal sequences of the sample data.

  lemma {:induction false} CuentaConcat(a: seq<real>, b: seq<real>, p: real -> bool)
    ensures Count(a + b, p) == Count(a, p) + Count(b, p)
    decreases |b|
  {
    if b != [] {
      assert (a + b)[..|a + b| - 1] == a + b[..|b| - 1];
      CuentaConcat(a, b[..|b| - 1], p);
    } else {
      assert a + b == a;
    }
  }

  lemma {:induction false} CuentaDiez(s: seq<real>, p: real -> bool)
    requires |s| == 10
    ensures Count(s, p) ==
            (if p(s[0]) then 1 else 0) + (if p(s[1]) then 1 else 0) + (if p(s[2]) then 1 else 0)
            + (if p(s[3]) then 1 else 0) + (if p(s[4]) then 1 else 0) + (if p(s[5]) then 1 else 0)
            + (if p(s[6]) then 1 else 0) + (if p(s[7]) then 1 else 0) + (if p(s[8]) then 1 else 0)
            + (if p(s[9]) then 1 else 0)
  {
    var a, b := [s[0], s[1], s[2], s[3], s[4]], [s[5], s[6], s[7], s[8], s[9]];
    assert s == a + b;
    CuentaConcat(a, b, p);
    CuentaCinco(a, p);
    CuentaCinco(b, p);
  }

  lemma {:induction false} CuentaCinco(s: seq<real>, p: real -> bool)
    requires |s| == 5
    ensures Count(s, p) ==
            (if p(s[0]) then 1 else 0) + (if p(s[1]) then 1 else 0) + (if p(s[2]) then 1 else 0)
            + (if p(s[3]) then 1 else 0) + (if p(s[4]) then 1 else 0)
  {
    assert s[..0] == [];
    PasoCuenta(s, p, 0); PasoCuenta(s, p, 1); PasoCuenta(s, p, 2); PasoCuenta(s, p, 3);
    PasoCuenta(s, p, 4);
    assert s[..5] == s;
  }

  lemma {:induction false} PasoCuenta(s: seq<real>, p: real -> bool, i: nat)
    requires i < |s|
    ensures Count(s[..i + 1], p) == Count(s[..i], p) + (if p(s[i]) then 1 else 0)
  {
    assert s[..i + 1][..i] == s[..i];
  }

  lemma {:induction false} PasoSuma(s: seq<real>, i: nat)
    requires i < |s|
    ensures Sum(s[..i + 1]) == Sum(s[..i]) + s[i]
  {
    assert s[..i + 1][..i] == s[..i];
  }

  lemma {:induction false} SumaDiez(s: seq<real>)
    requires |s| == 10
    ensures Sum(s) == s[0] + s[1] + s[2] + s[3] + s[4] + s[5] + s[6] + s[7] + s[8] + s[9]
  {
    assert s[..0] == [];
    PasoSuma(s, 0); PasoSuma(s, 1); PasoSuma(s, 2); PasoSuma(s, 3); PasoSuma(s, 4);
    PasoSuma(s, 5); PasoSuma(s, 6); PasoSuma(s, 7); PasoSuma(s, 8); PasoSuma(s, 9);
    assert s[..10] == s;
  }

  lemma {:induction false} SumaCinco(s: seq<real>)
    requires |s| == 5
    ensures Sum(s) == s[0] + s[1] + s[2] + s[3] + s[4]
  {
    assert s[..0] == [];
    PasoSuma(s, 0); PasoSuma(s, 1); PasoSuma(s, 2); PasoSuma(s, 3); PasoSuma(s, 4);
    assert s[..5] == s;
  }

  // One subject: "Mates" {7,5,4,6,9,10,3,8,8,9}.

  /** Mean 6.9, minimum 3, maximum 10, 8 passes and 2 fails. */
  lemma EstadisticasMates()
    ensures MediaDe(Some(NotasMates)) == Finite(6.9)
    ensures MinimoDe(Some(NotasMates)) == 3.0 && MaximoDe(Some(NotasMates)) == 10.0
    ensures Count(NotasMates, Aprobado) == 8 && Count(NotasMates, Suspenso) == 2
  {
    SumaDiez(NotasMates);
    CuentaDiez(NotasMates, Aprobado);
    CuentaDiez(NotasMates, Suspenso);
    MinFromIsLeast(DoubleMaxValue, NotasMates);
    MaxFromIsGreatest(DoubleMinValue, NotasMates);
    SeedOrder();
  }

  /** Every "Fisica" grade is above 7, so the count reaches the threshold (10 / 3) * 2 = 6. */
  lemma FisicaFenomenal()
    ensures DosTercios(|NotasFisica|) == 6
    ensures Count(NotasFisica, BandaFenomenal) == 10 && Clasifica(NotasFisica) == Fenomenal
  {
    CountNoneOrAll(NotasFisica, BandaFenomenal);
  }

  /** The threshold is reached, not exceeded: six grades above 7 out of ten is not "more
      than two thirds" (6 * 3 < 2 * 10), yet the subject is Fenomenal. */
  lemma UmbralInclusivo()
    ensures var s := [8.0, 8.0, 8.0, 8.0, 8.0, 8.0, 1.0, 1.0, 1.0, 1.0];
            Count(s, BandaFenomenal) * 3 < 2 * |s| && Clasifica(s) == Fenomenal
  {
    CuentaDiez([8.0, 8.0, 8.0, 8.0, 8.0, 8.0, 1.0, 1.0, 1.0, 1.0], BandaFenomenal);
  }

  /** Mates, Cocina, Diseño and Tenis each split into subgroups; Fisica is Fenomenal. */
  lemma VeredictosPrueba()
    ensures VeredictoDe(TablaPrueba[0]) == Subgrupos
    ensures VeredictoDe(TablaPrueba[1]) == Fenomenal
    ensures VeredictoDe(TablaPrueba[2]) == Subgrupos
    ensures VeredictoDe(TablaPrueba[3]) == Subgrupos
    ensures VeredictoDe(TablaPrueba[4]) == Subgrupos
  {
    FisicaFenomenal();
    CuentaDiez(NotasMates, BandaFenomenal); CuentaDiez(NotasMates, BandaRepaso);
    CuentaDiez(NotasMates, Suspenso);
    CuentaDiez(NotasCocina, BandaFenomenal); CuentaDiez(NotasCocina, BandaRepaso);
    CuentaDiez(NotasCocina, Suspenso);
    CuentaDiez(NotasDiseno, BandaFenomenal); CuentaDiez(NotasDiseno, BandaRepaso);
    CuentaDiez(NotasDiseno, Suspenso);
    CuentaDiez(NotasTenis, BandaFenomenal); CuentaDiez(NotasTenis, BandaRepaso);
    CuentaDiez(NotasTenis, Suspenso);
  }

  // The whole cohort: ten students (rows) by five subjects (columns).

  /** The sample grades of student `i`, subject by subject. */
  function FilaPrueba(i: int): (f: seq<real>)
    requires 0 <= i < 10
    ensures |f| == 5
  {
    [NotasMates[i], NotasFisica[i], NotasCocina[i], NotasDiseno[i], NotasTenis[i]]
  }

  lemma ColumnaPrueba(i: int)
    requires 0 <= i < 10
    ensures Columna(TablaPrueba, i) == FilaPrueba(i)
  {
  }

  /** A student's fail count and mean over the sample grades of one row. */
  lemma AlumnoPrueba(i: int)
    requires 0 <= i < 10
    ensures Suspensos(TablaPrueba, 10)[i] == Count(FilaPrueba(i), Suspenso)
    ensures Medias(TablaPrueba, 10)[i] == (FilaPrueba(i)[0] + FilaPrueba(i)[1] + FilaPrueba(i)[2]
                                           + FilaPrueba(i)[3] + FilaPrueba(i)[4]) / 5.0
  {
    ColumnaPrueba(i);
    SumaCinco(FilaPrueba(i));
  }

  /** Fails per student: Pablo 0, Ana 0, Luis 1, María 0, Carlos 0, Laura 1, Pedro 4,
      Sofía 3, Javier 2, Isabel 3. */
  lemma SuspensosPrueba()
    ensures Suspensos(TablaPrueba, 10) == [0, 0, 1, 0, 0, 1, 4, 3, 2, 3]
  {
    SuspensosPrimeros();
    SuspensosUltimos();
  }

  lemma SuspensosPrimeros()
    ensures var s := Suspensos(TablaPrueba, 10);
            s[0] == 0 && s[1] == 0 && s[2] == 1 && s[3] == 0 && s[4] == 0
  {
    var s := Suspensos(TablaPrueba, 10);
    assert s[0] == 0 by { AlumnoPrueba(0); CuentaCinco(FilaPrueba(0), Suspenso); }
    assert s[1] == 0 by { AlumnoPrueba(1); CuentaCinco(FilaPrueba(1), Suspenso); }
    assert s[2] == 1 by { AlumnoPrueba(2); CuentaCinco(FilaPrueba(2), Suspenso); }
    assert s[3] == 0 by { AlumnoPrueba(3); CuentaCinco(FilaPrueba(3), Suspenso); }
    assert s[4] == 0 by { AlumnoPrueba(4); CuentaCinco(FilaPrueba(4), Suspenso); }
  }

  lemma SuspensosUltimos()
    ensures var s := Suspensos(TablaPrueba, 10);
            s[5] == 1 && s[6] == 4 && s[7] == 3 && s[8] == 2 && s[9] == 3
  {
    var s := Suspensos(TablaPrueba, 10);
    assert s[5] == 1 by { AlumnoPrueba(5); CuentaCinco(FilaPrueba(5), Suspenso); }
    assert s[6] == 4 by { AlumnoPrueba(6); CuentaCinco(FilaPrueba(6), Suspenso); }
    assert s[7] == 3 by { AlumnoPrueba(7); CuentaCinco(FilaPrueba(7), Suspenso); }
    assert s[8] == 2 by { AlumnoPrueba(8); CuentaCinco(FilaPrueba(8), Suspenso); }
    assert s[9] == 3 by { AlumnoPrueba(9); CuentaCinco(FilaPrueba(9), Suspenso); }
  }

  /** The repeaters are Pedro, Sofía and Isabel (students 6, 7 and 9). */
  lemma RepetidoresPrueba()
    ensures RepetidoresDe(TablaPrueba, 10) == [6, 7, 9]
  {
    SuspensosPrueba();
    var s: seq<int> := [0, 0, 1, 0, 0, 1, 4, 3, 2, 3];
    assert s[..0] == [];
    PasoIndices(s, 0); PasoIndices(s, 1); PasoIndices(s, 2); PasoIndices(s, 3); PasoIndices(s, 4);
    PasoIndices(s, 5);
    assert IndicesWhere(s[..6], Repetidor) == [];
    PasoIndices(s, 6); PasoIndices(s, 7); PasoIndices(s, 8); PasoIndices(s, 9);
    assert s[..10] == s;
  }

  lemma {:induction false} PasoIndices(s: seq<int>, i: nat)
    requires i < |s|
    ensures IndicesWhere(s[..i + 1], Repetidor)
         == IndicesWhere(s[..i], Repetidor) + (if Repetidor(s[i]) then [i] else [])
  {
    assert s[..i + 1][..i] == s[..i];
  }

  /** Without the "Mates" grades Javier (student 8), who passed Mates with an 8, would
      have three fails and repeat the year. */
  lemma JavierSinMates()
    ensures AlumnoSuspensosDe(TablaPrueba, 10, 8) == 2
    ensures AlumnoSuspensosDe(TablaPrueba[0 := None], 10, 8) == 3
  {
    SuspensosPrueba();
    AusenteCuentaComoSuspenso(TablaPrueba, 10, 8, 0);
  }

  /** Raising Pedro's (student 6) "Mates" grade from 3 to 5 takes one fail off his
      four, leaving him with three: he still repeats the year. */
  lemma PedroApruebaMates()
    ensures AlumnoSuspensosDe(TablaPrueba[0 := Some(NotasMates[6 := 5.0])], 10, 6) == 3
  {
    var t := TablaPrueba[0 := Some(NotasMates[6 := 5.0])];
    assert Columna(t, 6) == Columna(TablaPrueba, 6)[0 := 5.0];
    CountUpdate(Columna(TablaPrueba, 6), Suspenso, 0, 5.0);
    SuspensosPrueba();
    assert Count(Columna(TablaPrueba, 6), Suspenso) == Suspensos(TablaPrueba, 10)[6] == 4;
    assert Columna(TablaPrueba, 6)[0] == 3.0;
  }

  /** Means per student: 8.4, 7.6, 7.4, 7.2, 7.8, 7.0, 4.6, 5.2, 5.2, 4.4. */
  lemma MediasPrueba()
    ensures Medias(TablaPrueba, 10) == [8.4, 7.6, 7.4, 7.2, 7.8, 7.0, 4.6, 5.2, 5.2, 4.4]
  {
    AlumnoPrueba(0); AlumnoPrueba(1); AlumnoPrueba(2); AlumnoPrueba(3); AlumnoPrueba(4);
    AlumnoPrueba(5); AlumnoPrueba(6); AlumnoPrueba(7); AlumnoPrueba(8); AlumnoPrueba(9);
  }

  /** Pablo (student 0) has the best mean, and the course as a whole splits into
      subgroups: 5 means above 7, 3 between 5 and 7 and 2 below 5, none reaching 6. */
  lemma CursoPrueba()
    ensures ArgMaxFrom(DoubleMinValue, Medias(TablaPrueba, 10)) == 0
    ensures Clasifica(Medias(TablaPrueba, 10)) == Subgrupos
  {
    MediasPrueba();
    var m := Medias(TablaPrueba, 10);
    ArgMaxFromIsFirstGreatest(DoubleMinValue, m);
    SeedOrder();
    CuentaDiez(m, BandaFenomenal); CuentaDiez(m, BandaRepaso); CuentaDiez(m, Suspenso);
  }

  /** A grade below the seed that no other grade undercuts is what `minimo` returns. */
  lemma MinimoEs(s: seq<real>, j: int)
    requires 0 <= j < |s| && s[j] < DoubleMaxValue && forall i :: 0 <= i < |s| ==> s[j] <= s[i]
    ensures MinFrom(DoubleMaxValue, s) == s[j]
  {
    MinFromIsLeast(DoubleMaxValue, s);
  }

  /** A grade above the seed that no other grade exceeds is what `maximo` returns. */
  lemma MaximoEs(s: seq<real>, j: int)
    requires 0 <= j < |s| && s[j] > DoubleMinValue && forall i :: 0 <= i < |s| ==> s[i] <= s[j]
    ensures MaxFrom(DoubleMinValue, s) == s[j]
  {
    MaxFromIsGreatest(DoubleMinValue, s);
  }

  /** Lowest grades per subject 3, 8, 2, 0, 1: Diseño is the hardest. */
  lemma MinimosPrueba()
    ensures Minimos(TablaPrueba) == [3.0, 8.0, 2.0, 0.0, 1.0]
    ensures ArgMinFrom(IntegerMaxValue as real, Minimos(TablaPrueba)) == 3
  {
    SeedOrder();
    MinimoEs(NotasMates, 6); MinimoEs(NotasFisica, 4); MinimoEs(NotasCocina, 9);
    MinimoEs(NotasDiseno, 9); MinimoEs(NotasTenis, 9);
    assert Minimos(TablaPrueba) == [3.0, 8.0, 2.0, 0.0, 1.0];
    ArgMinFromIsFirstLeast(IntegerMaxValue as real, Minimos(TablaPrueba));
  }

  /** Highest grades per subject 10, 10, 10, 9, 10: Mates comes first among the easiest. */
  lemma MaximosPrueba()
    ensures Maximos(TablaPrueba) == [10.0, 10.0, 10.0, 9.0, 10.0]
    ensures ArgMaxFrom(IntegerMinValue as real, Maximos(TablaPrueba)) == 0
  {
    SeedOrder();
    MaximoEs(NotasMates, 5); MaximoEs(NotasFisica, 0); MaximoEs(NotasCocina, 0);
    MaximoEs(NotasDiseno, 0); MaximoEs(NotasTenis, 4);
    var m := Maximos(TablaPrueba);
    assert m == [10.0, 10.0, 10.0, 9.0, 10.0];
    ArgMaxFromIsFirstGreatest(IntegerMinValue as real, m);
    var k := ArgMaxFrom(IntegerMinValue as real, m);
    assert k != -1 by { assert !(m[0] <= IntegerMinValue as real); }
    assert m[k] == 10.0;
  }

  // Clients of the two classes: what a caller of the ledger is told about the sample.

  /** The sample cohort's hardest subject, the one holding the lowest grade. */
  method InformeMinima() returns (minima: string)
    ensures minima == "Diseño"
  {
    var g := new Grupo();
    MinimosPrueba();
    minima := g.DameAsignaturaMinima();
  }

  /** The sample cohort's easiest subject, the first one holding the highest grade. */
  method InformeMaxima() returns (maxima: string)
    ensures maxima == "Mates"
  {
    var g := new Grupo();
    MaximosPrueba();
    maxima := g.DameAsignaturaMaxima();
  }

  /** Each subject's verdict in the sample cohort. */
  method InformeAsignaturas() returns (veredictos: seq<Veredicto>)
    ensures veredictos == [Subgrupos, Fenomenal, Subgrupos, Subgrupos, Subgrupos]
  {
    var g := new Grupo();
    VeredictosPrueba();
    veredictos := g.AnalizaAsignaturas();
  }

  /** The sample cohort's best student and its course verdict. */
  method InformeCurso() returns (mejor: string, curso: Veredicto)
    ensures mejor == "Pablo" && curso == Subgrupos
  {
    var g := new Grupo();
    CursoPrueba();
    mejor := g.DameMejorAlumnoMedia();
    curso := g.AnalizaCurso();
  }

  /** The sample cohort's repeaters. */
  method InformeRepetidores() returns (repetidores: seq<string>)
    ensures repetidores == ["Pedro", "Sofía", "Isabel"]
  {
    var g := new Grupo();
    RepetidoresPrueba();
    repetidores := g.MuestraRepetidores();
  }

  /** The mean of "Mates" and Javier's number of fails. */
  method InformeIndices() returns (mediaMates: JDouble, fallosJavier: int)
    ensures mediaMates == Finite(6.9) && fallosJavier == 2
  {
    var g := new Grupo();
    EstadisticasMates();
    mediaMates := g.DameMediaAsignatura(0);
    JavierSinMates();
    fallosJavier := g.DameAlumnoSuspensos(8);
  }

  /** The one-past-the-end student index 10 gets through the guard: its mean is -1,
      yet it is reported as failing all five subjects; index 11 is rejected. */
  method InformeUnoPasado() returns (mediaDiez: JDouble, fallosDiez: int, fallosOnce: int)
    ensures mediaDiez == Finite(-1.0) && fallosDiez == 5 && fallosOnce == -1
  {
    var g := new Grupo();
    assert UnaNotaPorAlumno(TablaPrueba, 10);
    AlumnoMediaUnoPasado(TablaPrueba, 10);
    mediaDiez := g.DameAlumnoMedia(10);
    AlumnoSuspensosUnoPasado(TablaPrueba, 10);
    fallosDiez := g.DameAlumnoSuspensos(10);
    fallosOnce := g.DameAlumnoSuspensos(11);
  }

  /** Changing a grade through the cohort's own subject: Pedro's "Mates" grade from 3 to
      5 changes that subject alone, and his fails drop from four to three. */
  method InformeCambio() returns (antes: int, despues: int, ghost tabla: Tabla)
    ensures antes == 4 && despues == 3
    ensures tabla == TablaPrueba[0 := Some(NotasMates[6 := 5.0])]
  {
    var g := new Grupo();
    SuspensosPrueba();
    antes := g.DameAlumnoSuspensos(6);
    g.asignaturas[0].CambiarNota(5.0, 6);
    assert g.Valid();
    tabla := g.Tabla();
    assert tabla == TablaPrueba[0 := Some(NotasMates[6 := 5.0])];
    PedroApruebaMates();
    despues := g.DameAlumnoSuspensos(6);
  }

  /** Diseño {9,8,...,0}: the first grade below 5 is at position 5; an out-of-range grade
      is refused and leaves the grades as they were, a valid one replaces one grade. */
  method EjemploDiseno() returns (primero: int, rechazada: seq<real>, aceptada: seq<real>)
    ensures primero == 5
    ensures rechazada == NotasDiseno
    ensures aceptada == NotasDiseno[9 := 5.0]
  {
    var a := NuevaAsignatura("Diseño", NotasDiseno);
    assert a.listaNotas[..] == NotasDiseno;
    primero := a.PrimerMenor(5.0);
    assert a.listaNotas[5] < 5.0 && forall j :: 0 <= j < 5 ==> a.listaNotas[j] >= 5.0;
    a.CambiarNota(11.0, 0);
    a.CambiarNota(5.0, 10);
    rechazada := a.listaNotas[..];
    a.CambiarNota(5.0, 9);
    aceptada := a.listaNotas[..];
  }
}
