/** One subject of the ledger: a name and the grades of the cohort's students, indexed
    by student position, or no grades at all (`listaNotas == null`) until they are
    loaded. Every query is a scan over the grade array; `CambiarNota` is the one
    operation that updates it in place. */
module Asignaturas {
  import opened Java
  import opened Scans

  /** A passing grade. */
  predicate Aprobado(x: real) { x >= 5.0 }

  /** A failing grade; also the lowest band of the classifier. */
  predicate Suspenso(x: real) { x < 5.0 }

  /** The top band of the classifier: strictly above 7. */
  predicate BandaFenomenal(x: real) { x > 7.0 }

  /** The middle band of the classifier: from 5 up to and including 7. */
  predicate BandaRepaso(x: real) { 5.0 <= x <= 7.0 }

  /** The message `analizaGrupo` prints, one constructor per message. */
  datatype Veredicto =
    | Fenomenal   // "VAMOS FENOMENAL"
    | Repaso      // "REPASAR EJERCICIOS CON DIFICULTAD"
    | Mal         // "VAMOS MAL. REPETIR EL TEMARIO"
    | Subgrupos   // "HACER SUBGRUPOS CON TAREAS DE DIFERENTE DIFICULTAD"
    | SinNotas    // "No existen notas en la Array"

  /** The classifier's threshold: a group of `n` is divided into thirds with Java's
      truncating `int` division first and then doubled. */
  function DosTercios(n: nat): int
  {
    (n / 3) * 2
  }

  /** The verdict for a populated grade sequence: the first band, in the order
      top, middle, bottom, whose size reaches the threshold; otherwise subgroups. */
  function Clasifica(s: seq<real>): Veredicto
  {
    var umbral := DosTercios(|s|);
    if Count(s, BandaFenomenal) >= umbral then Fenomenal
    else if Count(s, BandaRepaso) >= umbral then Repaso
    else if Count(s, Suspenso) >= umbral then Mal
    else Subgrupos
  }

  /** The verdict for `n` grades that all land in the bottom band, as NaN means do
      (neither `> 7` nor `>= 5` holds of NaN): only a threshold of zero is reached
      by the empty top band. */
  function ClasificaFondo(n: nat): Veredicto
  {
    if DosTercios(n) <= 0 then Fenomenal else Mal
  }

  // The subject-level queries as functions of the grades (None when absent),
  // which the cohort uses to describe what it reads from each subject.

  function NotaDe(notas: Option<seq<real>>, i: int): real
  {
    if notas.Some? && 0 <= i < |notas.value| then notas.value[i] else -1.0
  }

  /** What `media()` returns: -1 without grades, NaN for an empty grade array,
      otherwise the sum of the grades divided by their number. */
  function MediaDe(notas: Option<seq<real>>): JDouble
  {
    match notas
    case None => Finite(-1.0)
    case Some(s) => if |s| == 0 then NaN else Finite(Sum(s) / |s| as real)
  }

  /** What `minimo()` returns: -1 without grades, otherwise the scan from the seed
      Double.MAX_VALUE. */
  function MinimoDe(notas: Option<seq<real>>): real
  {
    match notas
    case None => -1.0
    case Some(s) => MinFrom(DoubleMaxValue, s)
  }

  /** What `maximo()` returns: -1 without grades, otherwise the scan from the seed
      Double.MIN_VALUE. */
  function MaximoDe(notas: Option<seq<real>>): real
  {
    match notas
    case None => -1.0
    case Some(s) => MaxFrom(DoubleMinValue, s)
  }

  /** What `analizaGrupo()` reports: the "no grades" message without grades,
      otherwise the classification of the grades. */
  function VeredictoDe(notas: Option<seq<real>>): Veredicto
  {
    match notas
    case None => SinNotas
    case Some(s) => Clasifica(s)
  }

  /** With grades present, every grade is either a pass or a fail:
      `totalAprobados() + totalSuspensos()` is the number of students. */
  lemma AprobadosMasSuspensos(s: seq<real>)
    ensures Count(s, Aprobado) + Count(s, Suspenso) == |s|
  {
    CountComplement(s, Aprobado, Suspenso);
  }

  /** The three bands of `analizaGrupo` split the grades: each grade lands in exactly
      one band, so the three counts add up to the number of students. */
  lemma {:induction false} BandasParticion(s: seq<real>)
    ensures Count(s, BandaFenomenal) + Count(s, BandaRepaso) + Count(s, Suspenso) == |s|
  {
    if s != [] {
      BandasParticion(s[..|s| - 1]);
    }
  }

  /** For a non-empty grade array, `minimo() <= media() <= maximo()`; the two seeds
      only widen the range, so they cannot break it. */
  lemma MinimoMediaMaximo(s: seq<real>)
    requires |s| > 0
    ensures MinFrom(DoubleMaxValue, s) <= Sum(s) / |s| as real <= MaxFrom(DoubleMinValue, s)
  {
    MinFromIsLeast(DoubleMaxValue, s);
    MaxFromIsGreatest(DoubleMinValue, s);
    MediaEntre(s, MinFrom(DoubleMaxValue, s), MaxFrom(DoubleMinValue, s));
  }

  /** A mean lies between any lower and upper bound of the grades. */
  lemma MediaEntre(s: seq<real>, lo: real, hi: real)
    requires |s| > 0 && forall i :: 0 <= i < |s| ==> lo <= s[i] <= hi
    ensures lo <= Sum(s) / |s| as real <= hi
  {
    SumBetween(s, lo, hi);
    CocienteEntre(lo, Sum(s), hi, |s| as real);
  }

  /** From `n * lo <= x <= n * hi` with `n` positive, `lo <= x / n <= hi`. */
  lemma CocienteEntre(lo: real, x: real, hi: real, n: real)
    requires n > 0.0 && n * lo <= x <= n * hi
    ensures lo <= x / n <= hi
  {
    assert x == n * (x / n);
  }

  /** `maximo()` on grades none of which is positive (all zeros, say) gives the seed
      Double.MIN_VALUE, not 0, and `mejorAlumno()` then gives -1. */
  lemma MaximoSinPositivos(s: seq<real>)
    requires forall i :: 0 <= i < |s| ==> s[i] <= 0.0
    ensures MaxFrom(DoubleMinValue, s) == DoubleMinValue
    ensures ArgMaxFrom(DoubleMinValue, s) == -1
  {
    ArgMaxFromIsFirstGreatest(DoubleMinValue, s);
  }

  /** The truncating threshold `(n / 3) * 2` agrees with the floor of two thirds
      except when `n` leaves remainder 2 modulo 3, where it is one lower. */
  lemma DosTerciosFrenteASuelo(n: nat)
    ensures n % 3 != 2 ==> DosTercios(n) == (2 * n) / 3
    ensures n % 3 == 2 ==> DosTercios(n) == (2 * n) / 3 - 1
  {
    var q, r := n / 3, n % 3;
    assert n == 3 * q + r;
    assert 2 * n == 3 * (2 * q) + 2 * r;
    if r == 2 {
      assert 2 * n == 3 * (2 * q + 1) + 1;
    }
  }

  /** The verdict is the first band, in the order top, middle, bottom, that reaches
      the threshold, where reaching means `>=`; when none does, the group is split
      into subgroups, and then every band is below the threshold. */
  lemma ClasificaPorUmbral(s: seq<real>)
    ensures var u := DosTercios(|s|);
            && (Clasifica(s) == Fenomenal <==> Count(s, BandaFenomenal) >= u)
            && (Clasifica(s) == Repaso <==> Count(s, BandaFenomenal) < u <= Count(s, BandaRepaso))
            && (Clasifica(s) == Mal <==>
                  Count(s, BandaFenomenal) < u && Count(s, BandaRepaso) < u <= Count(s, Suspenso))
            && (Clasifica(s) == Subgrupos <==>
                  Count(s, BandaFenomenal) < u && Count(s, BandaRepaso) < u && Count(s, Suspenso) < u)
            && Clasifica(s) != SinNotas
  {
  }

  /** Grades that all fail are classified as `ClasificaFondo` says: the top band
      only when the threshold is zero, otherwise the bottom band. */
  lemma TodoSuspenso(s: seq<real>)
    requires forall i :: 0 <= i < |s| ==> Suspenso(s[i])
    ensures Clasifica(s) == ClasificaFondo(|s|)
  {
    CountNoneOrAll(s, BandaFenomenal);
    CountNoneOrAll(s, BandaRepaso);
    CountNoneOrAll(s, Suspenso);
  }

  /** Overwriting one grade moves the pass count by at most one, as the old and new
      grades dictate: the count `cambiarNota` leaves behind. */
  lemma AprobadosTrasCambio(s: seq<real>, alumno: nat, nota: real)
    requires alumno < |s|
    ensures Count(s[alumno := nota], Aprobado)
         == Count(s, Aprobado) - (if Aprobado(s[alumno]) then 1 else 0) + (if Aprobado(nota) then 1 else 0)
  {
    CountUpdate(s, Aprobado, alumno, nota);
  }

  class Asignatura {
    const nombreAsignatura: string
    var listaNotas: array?<real>

    /** The grades as a value, None while none are recorded. */
    ghost function Notas(): Option<seq<real>>
      reads this, listaNotas
    {
      if listaNotas == null then None else Some(listaNotas[..])
    }

    /** A subject created with a name has no grades yet. */
    constructor (nombre: string)
      ensures nombreAsignatura == nombre && listaNotas == null
    {
      nombreAsignatura := nombre;
      listaNotas := null;
    }

    /** A subject created with a grade array keeps that very array (an alias, not a
        copy); a null array leaves it without grades. */
    constructor WithNotas(nombre: string, notas: array?<real>)
      ensures nombreAsignatura == nombre && listaNotas == notas
    {
      nombreAsignatura := nombre;
      listaNotas := null;
      if notas != null {
        listaNotas := notas;
      }
    }

    /** The arithmetic mean; -1 without grades, NaN for an empty grade array. */
    method Media() returns (r: JDouble)
      ensures r == MediaDe(Notas())
    {
      var suma := 0.0;
      if listaNotas != null {
        for i := 0 to listaNotas.Length
          invariant suma == Sum(listaNotas[..i])
        {
          assert listaNotas[..i + 1][..i] == listaNotas[..i];
          suma := suma + listaNotas[i];
        }
        assert listaNotas[..listaNotas.Length] == listaNotas[..];
        if listaNotas.Length == 0 {
          r := NaN;
        } else {
          r := Finite(suma / listaNotas.Length as real);
        }
      } else {
        r := Finite(-1.0);
      }
    }

    /** The least grade, scanned from the seed Double.MAX_VALUE; -1 without grades. */
    method Minimo() returns (r: real)
      ensures r == MinimoDe(Notas())
    {
      var resultado := DoubleMaxValue;
      if listaNotas != null {
        for i := 0 to listaNotas.Length
          invariant resultado == MinFrom(DoubleMaxValue, listaNotas[..i])
        {
          assert listaNotas[..i + 1][..i] == listaNotas[..i];
          if listaNotas[i] < resultado {
            resultado := listaNotas[i];
          }
        }
        assert listaNotas[..listaNotas.Length] == listaNotas[..];
      } else {
        resultado := -1.0;
      }
      r := resultado;
    }

    /** The greatest grade, scanned from the seed Double.MIN_VALUE (a tiny positive
        number); -1 without grades. */
    method Maximo() returns (r: real)
      ensures r == MaximoDe(Notas())
    {
      var resultado := DoubleMinValue;
      if listaNotas != null {
        for i := 0 to listaNotas.Length
          invariant resultado == MaxFrom(DoubleMinValue, listaNotas[..i])
        {
          assert listaNotas[..i + 1][..i] == listaNotas[..i];
          if listaNotas[i] > resultado {
            resultado := listaNotas[i];
          }
        }
        assert listaNotas[..listaNotas.Length] == listaNotas[..];
      } else {
        resultado := -1.0;
      }
      r := resultado;
    }

    /** The number of failing grades; -1 without grades. */
    method TotalSuspensos() returns (r: int)
      ensures listaNotas == null ==> r == -1
      ensures listaNotas != null ==> r == Count(listaNotas[..], Suspenso)
    {
      var suspensos := 0;
      if listaNotas != null {
        for i := 0 to listaNotas.Length
          invariant suspensos == Count(listaNotas[..i], Suspenso)
        {
          assert listaNotas[..i + 1][..i] == listaNotas[..i];
          if listaNotas[i] < 5.0 {
            suspensos := suspensos + 1;
          }
        }
        assert listaNotas[..listaNotas.Length] == listaNotas[..];
      } else {
        suspensos := -1;
      }
      r := suspensos;
    }

    /** The number of passing grades; -1 without grades. */
    method TotalAprobados() returns (r: int)
      ensures listaNotas == null ==> r == -1
      ensures listaNotas != null ==> r == Count(listaNotas[..], Aprobado)
    {
      var aprobados := 0;
      if listaNotas != null {
        for i := 0 to listaNotas.Length
          invariant aprobados == Count(listaNotas[..i], Aprobado)
        {
          assert listaNotas[..i + 1][..i] == listaNotas[..i];
          if listaNotas[i] >= 5.0 {
            aprobados := aprobados + 1;
          }
        }
        assert listaNotas[..listaNotas.Length] == listaNotas[..];
      } else {
        aprobados := -1;
      }
      r := aprobados;
    }

    /** Overwrites one student's grade; does nothing when there are no grades, the
        grade is outside [0, 10] or the index is outside the array. */
    method CambiarNota(nota: real, alumno: int)
      modifies listaNotas
      ensures listaNotas == old(listaNotas)
      ensures listaNotas != null && 0.0 <= nota <= 10.0 && 0 <= alumno < listaNotas.Length ==>
                listaNotas[..] == old(listaNotas[..])[alumno := nota]
      ensures !(listaNotas != null && 0.0 <= nota <= 10.0 && 0 <= alumno < listaNotas.Length) ==>
                listaNotas == null || listaNotas[..] == old(listaNotas[..])
    {
      if listaNotas == null {
        // "Notas aún no introducidas."
      } else if nota < 0.0 || nota > 10.0 {
        // "Nota incorrecta (0..10)."
      } else if alumno < 0 || alumno >= listaNotas.Length {
        // "Índice incorrecto (0..n-1)."
      } else {
        listaNotas[alumno] := nota;
      }
    }

    /** The index of the best grade: the first maximal one, provided it exceeds the
        seed Double.MIN_VALUE; -1 without grades or when no grade is positive. */
    method MejorAlumno() returns (r: int)
      ensures listaNotas == null ==> r == -1
      ensures listaNotas != null ==> r == ArgMaxFrom(DoubleMinValue, listaNotas[..])
    {
      var mejorNota := DoubleMinValue;
      var mejorAlumno := -1;
      if listaNotas != null {
        for i := 0 to listaNotas.Length
          invariant mejorNota == MaxFrom(DoubleMinValue, listaNotas[..i])
          invariant mejorAlumno == ArgMaxFrom(DoubleMinValue, listaNotas[..i])
        {
          assert listaNotas[..i + 1][..i] == listaNotas[..i];
          if listaNotas[i] > mejorNota {
            mejorNota := listaNotas[i];
            mejorAlumno := i;
          }
        }
        assert listaNotas[..listaNotas.Length] == listaNotas[..];
      }
      r := mejorAlumno;
    }

    /** The index of the worst grade: the first minimal one, provided it is below the
        seed Double.MAX_VALUE; -1 without grades. */
    method PeorAlumno() returns (r: int)
      ensures listaNotas == null ==> r == -1
      ensures listaNotas != null ==> r == ArgMinFrom(DoubleMaxValue, listaNotas[..])
    {
      var peorNota := DoubleMaxValue;
      var peorAlumno := -1;
      if listaNotas != null {
        for i := 0 to listaNotas.Length
          invariant peorNota == MinFrom(DoubleMaxValue, listaNotas[..i])
          invariant peorAlumno == ArgMinFrom(DoubleMaxValue, listaNotas[..i])
        {
          assert listaNotas[..i + 1][..i] == listaNotas[..i];
          if listaNotas[i] < peorNota {
            peorNota := listaNotas[i];
            peorAlumno := i;
          }
        }
        assert listaNotas[..listaNotas.Length] == listaNotas[..];
      }
      r := peorAlumno;
    }

    /** One student's grade; -1 without grades or for an index outside the array. */
    method NotaAlumno(alumno: int) returns (r: real)
      ensures listaNotas != null && 0 <= alumno < listaNotas.Length ==> r == listaNotas[alumno]
      ensures !(listaNotas != null && 0 <= alumno < listaNotas.Length) ==> r == -1.0
      ensures r == NotaDe(Notas(), alumno)
    {
      var nota := 0.0;
      if listaNotas != null && !(alumno < 0 || alumno >= listaNotas.Length) {
        nota := listaNotas[alumno];
      } else {
        nota := -1.0;
      }
      r := nota;
    }

    /** The indices of the passing students, in increasing order, in a new array of
        exactly the number of passes; null without grades or without passes. */
    method DameAprobados() returns (r: array?<int>)
      ensures listaNotas == null || Count(listaNotas[..], Aprobado) == 0 ==> r == null
      ensures listaNotas != null && Count(listaNotas[..], Aprobado) > 0 ==>
                r != null && fresh(r) && r[..] == IndicesWhere(listaNotas[..], Aprobado)
    {
      var alumnosAprobados: array?<int> := null;
      var totalAprobados := TotalAprobados();
      if listaNotas != null && totalAprobados > 0 {
        alumnosAprobados := IndicesInto(listaNotas, Aprobado, totalAprobados);
      }
      r := alumnosAprobados;
    }

    /** The indices of the failing students, in increasing order, in a new array of
        exactly the number of fails; null without grades or without fails. */
    method DameSuspensos() returns (r: array?<int>)
      ensures listaNotas == null || Count(listaNotas[..], Suspenso) == 0 ==> r == null
      ensures listaNotas != null && Count(listaNotas[..], Suspenso) > 0 ==>
                r != null && fresh(r) && r[..] == IndicesWhere(listaNotas[..], Suspenso)
    {
      var alumnosSuspensos: array?<int> := null;
      var totalSuspensos := TotalSuspensos();
      if listaNotas != null && totalSuspensos > 0 {
        alumnosSuspensos := IndicesInto(listaNotas, Suspenso, totalSuspensos);
      }
      r := alumnosSuspensos;
    }

    /** The first index whose grade is strictly below `nota`; -1 when there is none,
        when there are no grades, or when `nota` is outside [0, 10]. */
    method PrimerMenor(nota: real) returns (r: int)
      ensures -1 <= r && (listaNotas != null ==> r < listaNotas.Length)
      ensures r != -1 ==> listaNotas != null && 0.0 <= nota <= 10.0 && listaNotas[r] < nota
                          && forall j :: 0 <= j < r ==> listaNotas[j] >= nota
      ensures r == -1 ==> listaNotas == null || nota < 0.0 || nota > 10.0
                          || forall j :: 0 <= j < listaNotas.Length ==> listaNotas[j] >= nota
    {
      var encontrado := false;
      var indice := 0;
      if listaNotas != null && (nota >= 0.0 && nota <= 10.0) {
        while !encontrado && indice < listaNotas.Length
          invariant 0 <= indice <= listaNotas.Length
          invariant forall j :: 0 <= j < indice ==> listaNotas[j] >= nota
          invariant encontrado ==> indice < listaNotas.Length && listaNotas[indice] < nota
          decreases listaNotas.Length - indice, !encontrado
        {
          if listaNotas[indice] < nota {
            encontrado := true;
          } else {
            indice := indice + 1;
          }
        }
      }
      if !encontrado {
        indice := -1;
      }
      r := indice;
    }

    /** A sorted copy of the grades in a new array; the grades themselves are left as
        they were. Null without grades. */
    method Ordenar() returns (r: array?<real>)
      ensures listaNotas == null ==> r == null
      ensures listaNotas != null ==>
                r != null && fresh(r) && Sorted(r[..]) && multiset(r[..]) == multiset(listaNotas[..])
    {
      var listaNotasOrdenada: array?<real> := null;
      if listaNotas != null {
        listaNotasOrdenada := CopyOf(listaNotas);
        Sort(listaNotasOrdenada);
      }
      r := listaNotasOrdenada;
    }

    /** Classifies the group by how many grades fall in each band. */
    method AnalizaGrupo() returns (v: Veredicto)
      ensures v == VeredictoDe(Notas())
      ensures listaNotas == null <==> v == SinNotas
      ensures listaNotas != null && listaNotas.Length < 3 ==> v == Fenomenal
    {
      var fenomenal := 0;
      var repaso := 0;
      var mal := 0;
      if listaNotas != null {
        var dosTercios := (listaNotas.Length / 3) * 2;
        for i := 0 to listaNotas.Length
          invariant fenomenal == Count(listaNotas[..i], BandaFenomenal)
          invariant repaso == Count(listaNotas[..i], BandaRepaso)
          invariant mal == Count(listaNotas[..i], Suspenso)
        {
          assert listaNotas[..i + 1][..i] == listaNotas[..i];
          var nota := listaNotas[i];
          if nota > 7.0 {
            fenomenal := fenomenal + 1;
          } else if nota >= 5.0 {
            repaso := repaso + 1;
          } else {
            mal := mal + 1;
          }
        }
        assert listaNotas[..listaNotas.Length] == listaNotas[..];
        if fenomenal >= dosTercios {
          v := Fenomenal;
        } else if repaso >= dosTercios {
          v := Repaso;
        } else if mal >= dosTercios {
          v := Mal;
        } else {
          v := Subgrupos;
        }
      } else {
        v := SinNotas;
      }
    }
  }

  /** The loop shared by `dameAprobados` and `dameSuspensos`: allocates an array of
      the given count and writes each index whose grade satisfies `p` at a moving
      write position. */
  method IndicesInto(notas: array<real>, p: real -> bool, total: int) returns (r: array<int>)
    requires total == Count(notas[..], p)
    ensures fresh(r) && r[..] == IndicesWhere(notas[..], p)
  {
    ghost var s := notas[..];
    r := new int[total];
    var indice := 0;
    for i := 0 to notas.Length
      invariant indice == Count(s[..i], p) <= r.Length
      invariant r[..indice] == IndicesWhere(s[..i], p)
    {
      PrefixStep(s, p, i);
      CountPrefix(s, p, i + 1);
      if p(notas[i]) {
        r[indice] := i;
        indice := indice + 1;
      }
    }
    assert s[..notas.Length] == s;
  }

  /** `Arrays.copyOf(a, a.length)`: a new array with the same elements. */
  method CopyOf(a: array<real>) returns (b: array<real>)
    ensures fresh(b) && b[..] == a[..]
  {
    b := new real[a.Length];
    for i := 0 to a.Length
      invariant b[..i] == a[..i]
    {
      b[i] := a[i];
    }
  }

  /** `Arrays.sort`: rearranges the array into non-decreasing order (here by
      insertion with adjacent swaps). */
  method Sort(a: array<real>)
    modifies a
    ensures Sorted(a[..]) && multiset(a[..]) == old(multiset(a[..]))
  {
    for i := 0 to a.Length
      invariant forall p, q :: 0 <= p < q < i ==> a[p] <= a[q]
      invariant multiset(a[..]) == old(multiset(a[..]))
    {
      Insert(a, i);
    }
  }

  /** `s[..i + 1]` is ordered except that `s[j]` may be out of place to the left, and
      `s[j]` is at most everything after it. */
  ghost predicate OrdenadoSalvo(s: seq<real>, i: int, j: int)
    requires 0 <= j <= i < |s|
  {
    && (forall p, q :: 0 <= p < q <= i && p != j && q != j ==> s[p] <= s[q])
    && (forall q :: j < q <= i ==> s[j] <= s[q])
  }

  /** Swapping an out-of-place `s[j]` with its larger left neighbour moves the hole left. */
  lemma IntercambioOrdena(s: seq<real>, i: int, j: int)
    requires 0 < j <= i < |s| && OrdenadoSalvo(s, i, j) && s[j - 1] > s[j]
    ensures OrdenadoSalvo(s[j - 1 := s[j]][j := s[j - 1]], i, j - 1)
  {
  }

  /** Moves `a[i]` left past every larger element of the sorted prefix `a[..i]`. */
  method Insert(a: array<real>, i: int)
    requires 0 <= i < a.Length
    requires forall p, q :: 0 <= p < q < i ==> a[p] <= a[q]
    modifies a
    ensures forall p, q :: 0 <= p < q <= i ==> a[p] <= a[q]
    ensures multiset(a[..]) == old(multiset(a[..]))
  {
    var j := i;
    while j > 0 && a[j - 1] > a[j]
      invariant 0 <= j <= i
      invariant OrdenadoSalvo(a[..], i, j)
      invariant multiset(a[..]) == old(multiset(a[..]))
    {
      IntercambioOrdena(a[..], i, j);
      a[j - 1], a[j] := a[j], a[j - 1];
      j := j - 1;
    }
  }
}
