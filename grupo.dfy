/** A cohort: the names of its students and its subjects, two parallel arrays tied
    together only by student position. Each cohort query combines one per-subject
    query over every subject (for one student) or over every student. */
module Grupos {
  import opened Java
  import opened Scans
  import opened Asignaturas

  /** The grades of every subject, in subject order, each None while absent. */
  type Tabla = seq<Option<seq<real>>>

  /** What `notaAlumno(i)` returns for each subject: student `i`'s column. */
  function Columna(t: Tabla, i: int): seq<real>
  {
    seq(|t|, k requires 0 <= k < |t| => NotaDe(t[k], i))
  }

  /** The index guard of the student queries, as written: it rejects `i > n`, so the
      one-past-the-end index `n` passes. */
  predicate IndiceRechazado(i: int, n: int)
  {
    i > n || i < 0
  }

  /** `dameAlumnoMedia(i)` for a cohort of `n` students. */
  function AlumnoMediaDe(t: Tabla, n: int, i: int): JDouble
  {
    if IndiceRechazado(i, n) then Finite(-1.0)
    else if |t| == 0 then NaN
    else Finite(Sum(Columna(t, i)) / |t| as real)
  }

  /** `dameAlumnoSuspensos(i)` for a cohort of `n` students. */
  function AlumnoSuspensosDe(t: Tabla, n: int, i: int): int
  {
    if IndiceRechazado(i, n) then -1 else Count(Columna(t, i), Suspenso)
  }

  /** Every student's mean, in student order (defined when there is a subject). */
  function Medias(t: Tabla, n: nat): (m: seq<real>)
    requires |t| > 0
    ensures |m| == n && forall i :: 0 <= i < n ==> AlumnoMediaDe(t, n, i) == Finite(m[i])
  {
    seq(n, i requires 0 <= i < n => Sum(Columna(t, i)) / |t| as real)
  }

  /** Every student's number of failed subjects, in student order. */
  function Suspensos(t: Tabla, n: nat): (s: seq<int>)
    ensures |s| == n && forall i :: 0 <= i < n ==> s[i] == AlumnoSuspensosDe(t, n, i)
  {
    seq(n, i requires 0 <= i < n => Count(Columna(t, i), Suspenso))
  }

  /** A student who fails more than two subjects repeats the year. */
  predicate Repetidor(suspensos: int) { suspensos > 2 }

  /** The positions of the repeaters, in student order. */
  function RepetidoresDe(t: Tabla, n: nat): seq<int>
  {
    IndicesWhere(Suspensos(t, n), Repetidor)
  }

  /** Every subject's `minimo()` and `maximo()`, in subject order. */
  function Minimos(t: Tabla): seq<real>
  {
    seq(|t|, k requires 0 <= k < |t| => MinimoDe(t[k]))
  }

  function Maximos(t: Tabla): seq<real>
  {
    seq(|t|, k requires 0 <= k < |t| => MaximoDe(t[k]))
  }

  /** The cohort's assumed (never checked) shape: every present grade array has one
      grade per student. */
  ghost predicate UnaNotaPorAlumno(t: Tabla, n: int)
  {
    forall k :: 0 <= k < |t| ==> t[k].Some? ==> |t[k].value| == n
  }

  /** The one-past-the-end index `n` passes the guard of `dameAlumnoMedia`, but every
      subject then answers -1, so the mean is -1 all the same. */
  lemma AlumnoMediaUnoPasado(t: Tabla, n: nat)
    requires |t| > 0 && UnaNotaPorAlumno(t, n)
    ensures AlumnoMediaDe(t, n, n) == Finite(-1.0)
  {
    var c := Columna(t, n);
    SumConstant(c, -1.0);
    assert Sum(c) == |t| as real * -1.0;
    assert Sum(c) / |t| as real == -1.0;
  }

  /** At the one-past-the-end index `dameAlumnoSuspensos` counts every subject as
      failed instead of rejecting the index. */
  lemma AlumnoSuspensosUnoPasado(t: Tabla, n: nat)
    requires UnaNotaPorAlumno(t, n)
    ensures AlumnoSuspensosDe(t, n, n) == |t|
  {
    CountNoneOrAll(Columna(t, n), Suspenso);
  }

  /** Removing a subject's grades turns that subject into a fail for every accepted
      student index: the fail count rises by one exactly when the student had passed. */
  lemma AusenteCuentaComoSuspenso(t: Tabla, n: int, i: int, k: nat)
    requires 0 <= i <= n && k < |t|
    ensures AlumnoSuspensosDe(t[k := None], n, i)
         == AlumnoSuspensosDe(t, n, i) + (if Suspenso(NotaDe(t[k], i)) then 0 else 1)
  {
    assert Columna(t[k := None], i) == Columna(t, i)[k := -1.0];
    CountUpdate(Columna(t, i), Suspenso, k, -1.0);
  }

  /** Removing a subject's grades replaces that subject's term in a student's sum by
      -1 instead of leaving it out. */
  lemma AusenteSumaMenosUno(t: Tabla, i: int, k: nat)
    requires k < |t|
    ensures Sum(Columna(t[k := None], i)) == Sum(Columna(t, i)) - NotaDe(t[k], i) - 1.0
  {
    assert Columna(t[k := None], i) == Columna(t, i)[k := -1.0];
    SumUpdate(Columna(t, i), k, -1.0);
  }

  /** The repeaters are exactly the students with more than two fails, each once, in
      increasing student order. */
  lemma RepetidoresExactamente(t: Tabla, n: nat)
    ensures forall j :: 0 <= j < |RepetidoresDe(t, n)| ==> 0 <= RepetidoresDe(t, n)[j] < n
    ensures forall j, l :: 0 <= j < l < |RepetidoresDe(t, n)| ==>
              RepetidoresDe(t, n)[j] < RepetidoresDe(t, n)[l]
    ensures forall i :: 0 <= i < n ==> (i in RepetidoresDe(t, n) <==> AlumnoSuspensosDe(t, n, i) > 2)
  {
    IndicesWhereExactly(Suspensos(t, n), Repetidor);
  }

  /** The best student by mean is the first one with the highest mean, provided that
      mean is positive; otherwise " " is returned. */
  lemma MejorAlumnoMediaPrimero(t: Tabla, n: nat)
    requires |t| > 0
    ensures var k := ArgMaxFrom(DoubleMinValue, Medias(t, n));
            (k == -1 <==> forall i :: 0 <= i < n ==> Medias(t, n)[i] <= DoubleMinValue)
            && (k != -1 ==>
                  && 0 <= k < n
                  && (forall i :: 0 <= i < n ==> Medias(t, n)[i] <= Medias(t, n)[k])
                  && (forall i :: 0 <= i < k ==> Medias(t, n)[i] < Medias(t, n)[k]))
  {
    ArgMaxFromIsFirstGreatest(DoubleMinValue, Medias(t, n));
  }
  /** The student names and grade arrays of the sample cohort built by the default constructor. */
  const AlumnosPrueba: seq<string> :=
    ["Pablo", "Ana", "Luis", "María", "Carlos", "Laura", "Pedro", "Sofía", "Javier", "Isabel"]
  const NotasMates: seq<real> := [7.0, 5.0, 4.0, 6.0, 9.0, 10.0, 3.0, 8.0, 8.0, 9.0]
  const NotasFisica: seq<real> := [10.0, 9.0, 10.0, 10.0, 8.0, 10.0, 9.0, 10.0, 10.0, 10.0]
  const NotasCocina: seq<real> := [10.0, 9.0, 8.0, 5.0, 7.0, 6.0, 4.0, 3.0, 5.0, 2.0]
  const NotasDiseno: seq<real> := [9.0, 8.0, 7.0, 6.0, 5.0, 4.0, 3.0, 2.0, 1.0, 0.0]
  const NotasTenis: seq<real> := [6.0, 7.0, 8.0, 9.0, 10.0, 5.0, 4.0, 3.0, 2.0, 1.0]
  const AsignaturasPrueba: seq<string> := ["Mates", "Fisica", "Cocina", "Diseño", "Tenis"]
  const TablaPrueba: Tabla :=
    [Some(NotasMates), Some(NotasFisica), Some(NotasCocina), Some(NotasDiseno), Some(NotasTenis)]

  class Grupo {
    const nombreGrupo: string
    var alumnos: array<string>
    var asignaturas: array<Asignatura?>
    var totalAlumnos: int
    var totalAsignaturas: int
    ghost var Repr: set<object>

    /** The counters agree with the arrays they count. */
    ghost predicate Dimensionado()
      reads this
    {
      totalAlumnos == alumnos.Length && totalAsignaturas == asignaturas.Length
    }

    /** Sized, and every subject slot holds a subject (the queries dereference each);
        `Repr` holds the subject array, the subjects and their grade arrays. */
    ghost predicate Valid()
      reads this, Repr
    {
      Dimensionado() && asignaturas in Repr
      && forall k :: 0 <= k < asignaturas.Length ==>
           asignaturas[k] != null && asignaturas[k] in Repr
           && (asignaturas[k].listaNotas != null ==> asignaturas[k].listaNotas in Repr)
    }

    /** The grades of every subject as a value. */
    ghost function Tabla(): (t: Tabla)
      requires Valid()
      reads this, Repr
      ensures |t| == asignaturas.Length
      ensures forall k :: 0 <= k < |t| ==> t[k] == asignaturas[k].Notas()
    {
      TablaHasta(asignaturas.Length)
    }

    ghost function TablaHasta(n: nat): (t: Tabla)
      requires Valid() && n <= asignaturas.Length
      reads this, Repr
      ensures |t| == n && forall k :: 0 <= k < n ==> t[k] == asignaturas[k].Notas()
    {
      if n == 0 then [] else TablaHasta(n - 1) + [asignaturas[n - 1].Notas()]
    }

    /** The sample cohort "Prueba": ten students and five graded subjects. */
    constructor ()
      ensures Valid() && fresh(alumnos) && fresh(asignaturas) && fresh(Repr)
      ensures nombreGrupo == "Prueba" && totalAlumnos == 10 && totalAsignaturas == 5
      ensures forall j, k :: 0 <= j < k < 5 ==>
                asignaturas[j] != asignaturas[k] && asignaturas[j].listaNotas != asignaturas[k].listaNotas
      ensures alumnos[..] == AlumnosPrueba && Tabla() == TablaPrueba
      ensures forall k :: 0 <= k < 5 ==> asignaturas[k].nombreAsignatura == AsignaturasPrueba[k]
    {
      nombreGrupo := "Prueba";
      totalAlumnos := 10;
      alumnos := new string[10];
      totalAsignaturas := 5;
      asignaturas := new Asignatura?[5];
      new;
      InicializarArrays();
      Repr := {asignaturas} + (set k | 0 <= k < 5 :: asignaturas[k] as object)
              + (set k | 0 <= k < 5 :: asignaturas[k].listaNotas as object);
    }

    /** A cohort of the given sizes with no subjects yet: every subject slot is null
        (and, unlike Java's null names, every name is empty). */
    constructor Crear(nombre: string, totalAlumnos: int, totalAsignaturas: int)
      requires totalAlumnos >= 0 && totalAsignaturas >= 0  // else Java throws NegativeArraySizeException
      ensures Dimensionado() && fresh(alumnos) && fresh(asignaturas) && Repr == {asignaturas}
      ensures nombreGrupo == nombre
      ensures this.totalAlumnos == totalAlumnos && this.totalAsignaturas == totalAsignaturas
      ensures forall k :: 0 <= k < asignaturas.Length ==> asignaturas[k] == null
    {
      nombreGrupo := nombre;
      this.totalAlumnos := totalAlumnos;
      alumnos := new string[totalAlumnos](_ => "");
      this.totalAsignaturas := totalAsignaturas;
      asignaturas := new Asignatura?[totalAsignaturas](_ => null);
      Repr := {asignaturas};
    }

    /** Fills the two arrays with the sample names and subjects. */
    method InicializarArrays()
      requires alumnos.Length == 10 && asignaturas.Length == 5
      modifies alumnos, asignaturas
      ensures alumnos[..] == AlumnosPrueba
      ensures forall k :: 0 <= k < 5 ==>
                asignaturas[k] != null && asignaturas[k].listaNotas != null
                && fresh(asignaturas[k]) && fresh(asignaturas[k].listaNotas)
                && asignaturas[k].nombreAsignatura == AsignaturasPrueba[k]
                && asignaturas[k].Notas() == TablaPrueba[k]
      ensures forall j, k :: 0 <= j < k < 5 ==>
                asignaturas[j] != asignaturas[k] && asignaturas[j].listaNotas != asignaturas[k].listaNotas
    {
      NombresPrueba();

      // One `new Asignatura(nombre, notas)` per subject, in the order of the Java code,
      // each over a grade array of its own.
      for k := 0 to 5
        invariant alumnos[..] == AlumnosPrueba
        invariant forall j :: 0 <= j < k ==>
                    asignaturas[j] != null && asignaturas[j].listaNotas != null
                    && fresh(asignaturas[j]) && fresh(asignaturas[j].listaNotas)
                    && asignaturas[j].nombreAsignatura == AsignaturasPrueba[j]
                    && asignaturas[j].Notas() == TablaPrueba[j]
        invariant forall j, l :: 0 <= j < l < k ==>
                    asignaturas[j] != asignaturas[l] && asignaturas[j].listaNotas != asignaturas[l].listaNotas
      {
        asignaturas[k] := NuevaAsignatura(AsignaturasPrueba[k], TablaPrueba[k].value);
      }
    }

    /** The first half of `inicializarArrays`: the ten sample names. */
    method NombresPrueba()
      requires alumnos.Length == 10
      modifies alumnos
      ensures alumnos[..] == AlumnosPrueba
    {
      alumnos[0] := "Pablo";
      alumnos[1] := "Ana";
      alumnos[2] := "Luis";
      alumnos[3] := "María";
      alumnos[4] := "Carlos";
      alumnos[5] := "Laura";
      alumnos[6] := "Pedro";
      alumnos[7] := "Sofía";
      alumnos[8] := "Javier";
      alumnos[9] := "Isabel";
    }

    /** The name of the first subject with the lowest `minimo()`, scanned from the
        seed Integer.MAX_VALUE; "" when no subject's minimum is below that seed. */
    method DameAsignaturaMinima() returns (r: string)
      requires Valid()
      ensures var k := ArgMinFrom(IntegerMaxValue as real, Minimos(Tabla()));
              r == if k == -1 then "" else asignaturas[k].nombreAsignatura
    {
      ghost var minimos := Minimos(Tabla());
      ghost var materias := asignaturas[..];
      var notaMinima: real := IntegerMaxValue as real;
      var res := "";
      for i := 0 to totalAsignaturas
        invariant notaMinima == MinFrom(IntegerMaxValue as real, minimos[..i])
        invariant var k := ArgMinFrom(IntegerMaxValue as real, minimos[..i]);
                  res == if k == -1 then "" else materias[k].nombreAsignatura
      {
        MinStep(IntegerMaxValue as real, minimos, i);
        var minimo := asignaturas[i].Minimo();
        if minimo < notaMinima {
          notaMinima := asignaturas[i].Minimo();
          res := asignaturas[i].nombreAsignatura;
        }
      }
      assert minimos[..totalAsignaturas] == minimos;
      r := res;
    }

    /** The name of the first subject with the highest `maximo()`, scanned from the
        seed Integer.MIN_VALUE; "" when no subject's maximum is above that seed. */
    method DameAsignaturaMaxima() returns (r: string)
      requires Valid()
      ensures var k := ArgMaxFrom(IntegerMinValue as real, Maximos(Tabla()));
              r == if k == -1 then "" else asignaturas[k].nombreAsignatura
    {
      ghost var maximos := Maximos(Tabla());
      ghost var materias := asignaturas[..];
      var notaMaxima: real := IntegerMinValue as real;
      var res := "";
      for i := 0 to totalAsignaturas
        invariant notaMaxima == MaxFrom(IntegerMinValue as real, maximos[..i])
        invariant var k := ArgMaxFrom(IntegerMinValue as real, maximos[..i]);
                  res == if k == -1 then "" else materias[k].nombreAsignatura
      {
        MaxStep(IntegerMinValue as real, maximos, i);
        var maximo := asignaturas[i].Maximo();
        if maximo > notaMaxima {
          notaMaxima := asignaturas[i].Maximo();
          res := asignaturas[i].nombreAsignatura;
        }
      }
      assert maximos[..totalAsignaturas] == maximos;
      r := res;
    }

    /** The mean of one subject; -1 for an index below 0 or above the number of
        subjects. At exactly the number of subjects the guard in the Java code lets the index
        through and the array access throws, so that index is excluded here. */
    method DameMediaAsignatura(indice: int) returns (r: JDouble)
      requires Valid()
      requires indice != totalAsignaturas  // Java: ArrayIndexOutOfBoundsException
      ensures 0 <= indice < totalAsignaturas ==> r == MediaDe(Tabla()[indice])
      ensures indice < 0 || indice > totalAsignaturas ==> r == Finite(-1.0)
    {
      var media := Finite(-1.0);
      if indice > totalAsignaturas || indice < 0 {
        // "[!] Indice no Válido"
      } else {
        media := asignaturas[indice].Media();
      }
      r := media;
    }

    /** One student's mean over all subjects: the sum of `notaAlumno(indice)` over the
        subjects divided by their number, so an absent subject adds -1. */
    method DameAlumnoMedia(indice: int) returns (r: JDouble)
      requires Valid()
      ensures r == AlumnoMediaDe(Tabla(), totalAlumnos, indice)
    {
      var media := Finite(-1.0);
      if indice > totalAlumnos || indice < 0 {
        // "[!] Indice no Válido"
      } else {
        ghost var columna := Columna(Tabla(), indice);
        var suma := 0.0;
        for i := 0 to totalAsignaturas
          invariant suma == Sum(columna[..i])
        {
          assert columna[..i + 1][..i] == columna[..i];
          var nota := asignaturas[i].NotaAlumno(indice);
          suma := suma + nota;
        }
        assert columna[..totalAsignaturas] == columna;
        // Java's double division: 0.0 / 0 is NaN.
        media := if totalAsignaturas == 0 then NaN else Finite(suma / totalAsignaturas as real);
      }
      r := media;
    }

    /** How many subjects one student fails: those whose `notaAlumno(indice)` is
        below 5, so an absent subject counts as failed; -1 for a rejected index. */
    method DameAlumnoSuspensos(indice: int) returns (r: int)
      requires Valid()
      ensures r == AlumnoSuspensosDe(Tabla(), totalAlumnos, indice)
      ensures IndiceRechazado(indice, totalAlumnos) <==> r == -1
      ensures !IndiceRechazado(indice, totalAlumnos) ==> 0 <= r <= totalAsignaturas
    {
      var suspensos := -1;
      if indice > totalAlumnos || indice < 0 {
        // "[!] Indice no Válido"
      } else {
        ghost var columna := Columna(Tabla(), indice);
        suspensos := 0;
        for i := 0 to totalAsignaturas
          invariant suspensos == Count(columna[..i], Suspenso)
        {
          assert columna[..i + 1][..i] == columna[..i];
          var nota := asignaturas[i].NotaAlumno(indice);
          if nota < 5.0 {
            suspensos := suspensos + 1;
          }
        }
        assert columna[..totalAsignaturas] == columna;
      }
      r := suspensos;
    }

    /** The name of the first student with the highest mean, scanned from the seed
        Double.MIN_VALUE; " " when no mean exceeds it (a NaN mean never does). */
    method DameMejorAlumnoMedia() returns (r: string)
      requires Valid()
      ensures totalAsignaturas == 0 ==> r == " "
      ensures totalAsignaturas > 0 ==>
                var k := ArgMaxFrom(DoubleMinValue, Medias(Tabla(), totalAlumnos));
                r == if k == -1 then " " else alumnos[k]
    {
      ghost var t := Tabla();
      ghost var nombres := alumnos[..];
      var mejorMedia := DoubleMinValue;
      var mejorAlumno := " ";
      for i := 0 to totalAlumnos
        invariant Tabla() == t
        invariant |t| == 0 ==> mejorAlumno == " "
        invariant |t| > 0 ==> MejorHasta(Medias(t, totalAlumnos), nombres, i, mejorMedia, mejorAlumno)
      {
        var media := DameAlumnoMedia(i);
        MejorSigue(t, totalAlumnos, nombres, i, media, mejorMedia, mejorAlumno);
        if Greater(media, mejorMedia) {
          mejorMedia := media.v;
          mejorAlumno := alumnos[i];
        }
      }
      if |t| > 0 {
        assert Medias(t, totalAlumnos)[..totalAlumnos] == Medias(t, totalAlumnos);
      }
      r := mejorAlumno;
    }

    /** The repeaters, as the sequence of names `muestraRepetidores` prints: the
        students with more than two failed subjects, in student order. */
    method MuestraRepetidores() returns (r: seq<string>)
      requires Valid()
      ensures var idx := RepetidoresDe(Tabla(), totalAlumnos);
              |r| == |idx| && forall j :: 0 <= j < |r| ==> 0 <= idx[j] < alumnos.Length && r[j] == alumnos[idx[j]]
    {
      ghost var t := Tabla();
      ghost var suspensos := Suspensos(t, totalAlumnos);
      ghost var nombres := alumnos[..];
      ghost var idx: seq<int> := [];
      r := [];
      for i := 0 to totalAlumnos
        invariant Tabla() == t
        invariant idx == IndicesWhere(suspensos[..i], Repetidor)
        invariant NombresEn(r, idx, nombres, i)
      {
        var fallos := DameAlumnoSuspensos(i);
        assert fallos == suspensos[i];
        ghost var r0, idx0 := r, idx;
        if fallos > 2 {
          r, idx := r + [alumnos[i]], idx + [i];
        }
        PrefixStep(suspensos, Repetidor, i);
        NombresEnSigue(r0, idx0, nombres, i, fallos > 2);
      }
      assert suspensos[..totalAlumnos] == suspensos;
    }

    /** The verdict of every subject, in subject order. */
    method AnalizaAsignaturas() returns (vs: seq<Veredicto>)
      requires Valid()
      ensures |vs| == totalAsignaturas
      ensures forall k :: 0 <= k < totalAsignaturas ==> vs[k] == VeredictoDe(Tabla()[k])
    {
      vs := [];
      for i := 0 to totalAsignaturas
        invariant |vs| == i && forall k :: 0 <= k < i ==> vs[k] == VeredictoDe(Tabla()[k])
      {
        var v := asignaturas[i].AnalizaGrupo();
        vs := vs + [v];
      }
    }

    /** The cohort verdict: every student's mean is written into a new array, which
        becomes the grade array of a made-up subject, and that subject is classified.
        With no subjects every mean is 0/0, a NaN, which a grade cannot hold here but
        which the classifier counts in the bottom band. */
    method AnalizaCurso() returns (v: Veredicto)
      requires Valid()
      ensures totalAsignaturas > 0 ==> v == Clasifica(Medias(Tabla(), totalAlumnos))
      ensures totalAsignaturas == 0 ==> v == ClasificaFondo(totalAlumnos)
    {
      if totalAsignaturas == 0 {
        v := ClasificaFondo(totalAlumnos);
      } else {
        var medias := MediasAlumnos();
        var mediaAsignaturas := new Asignatura.WithNotas("Analisis " + nombreGrupo, medias);
        v := mediaAsignaturas.AnalizaGrupo();
      }
    }

    /** The first half of `analizaCurso`: a new array holding every student's mean. */
    method MediasAlumnos() returns (medias: array<real>)
      requires Valid()
      requires totalAsignaturas > 0
      ensures fresh(medias) && medias[..] == Medias(Tabla(), totalAlumnos)
    {
      ghost var t := Tabla();
      ghost var m := Medias(t, totalAlumnos);
      medias := new real[totalAlumnos];
      for i := 0 to totalAlumnos
        invariant Tabla() == t
        invariant forall k :: 0 <= k < i ==> medias[k] == m[k]
      {
        var media := DameAlumnoMedia(i);
        assert media == Finite(m[i]);
        medias[i] := media.v;
      }
      assert medias[..] == m;
    }
  }

  /** After the first `i` students, `mejor` and `nombre` are the running maximum of
      their means and the name of its first holder (" " while no mean beats the seed). */
  ghost predicate MejorHasta(medias: seq<real>, nombres: seq<string>, i: int, mejor: real, nombre: string)
  {
    && 0 <= i <= |medias| <= |nombres|
    && mejor == MaxFrom(DoubleMinValue, medias[..i])
    && nombre == var k := ArgMaxFrom(DoubleMinValue, medias[..i]); if k == -1 then " " else nombres[k]
  }

  lemma MejorSigue(t: Tabla, n: nat, nombres: seq<string>, i: int, media: JDouble, mejor: real, nombre: string)
    requires 0 <= i < n && media == AlumnoMediaDe(t, n, i)
    requires |t| == 0 ==> nombre == " "
    requires |t| > 0 ==> MejorHasta(Medias(t, n), nombres, i, mejor, nombre)
    ensures |t| == 0 ==> !Greater(media, mejor)
    ensures |t| > 0 && Greater(media, mejor) ==> MejorHasta(Medias(t, n), nombres, i + 1, media.v, nombres[i])
    ensures |t| > 0 && !Greater(media, mejor) ==> MejorHasta(Medias(t, n), nombres, i + 1, mejor, nombre)
  {
    if |t| > 0 {
      MaxStep(DoubleMinValue, Medias(t, n), i);
    }
  }

  /** `r` names, position by position, the students at the indices `idx`, all below `i`. */
  ghost predicate NombresEn(r: seq<string>, idx: seq<int>, nombres: seq<string>, i: int)
  {
    && |r| == |idx| && i <= |nombres|
    && forall j :: 0 <= j < |r| ==> 0 <= idx[j] < i && r[j] == nombres[idx[j]]
  }

  lemma NombresEnSigue(r: seq<string>, idx: seq<int>, nombres: seq<string>, i: int, anade: bool)
    requires 0 <= i < |nombres| && NombresEn(r, idx, nombres, i)
    ensures anade ==> NombresEn(r + [nombres[i]], idx + [i], nombres, i + 1)
    ensures !anade ==> NombresEn(r, idx, nombres, i + 1)
  {
  }

  /** `new Asignatura(nombre, notas)` on a freshly allocated literal grade array. */
  method NuevaAsignatura(nombre: string, notas: seq<real>) returns (a: Asignatura)
    ensures fresh(a) && fresh(a.listaNotas) && a.listaNotas != null
    ensures a.nombreAsignatura == nombre && a.Notas() == Some(notas)
  {
    var lista := new real[|notas|](i requires 0 <= i < |notas| => notas[i]);
    assert lista[..] == notas;
    a := new Asignatura.WithNotas(nombre, lista);
  }
}
