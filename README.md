# Grade ledger: subjects and cohorts

This project models a small grade ledger written in Java. It has two classes.

- **`Asignatura`** is a subject. It has a name and an array of grades, one per
  student position, and it can have no array at all.
  - It answers statistical queries: mean, minimum, maximum, the numbers of passes
    and fails, and the best and worst student.
  - It can overwrite one grade, list the positions of the passing or failing
    students, find the first grade below a value, and give a sorted copy.
  - It classifies the group into one of four verdicts by counting how many grades
    fall in three bands.
- **`Grupo`** is a cohort. It holds an array of student names and an array of
  subjects, linked only by student position.
  - Its queries combine subject queries across all subjects for one student, or
    across all students.
  - The default constructor builds a fixed sample cohort, "Prueba": ten students
    and five subjects.

How the Java is represented:

- Both classes are Dafny `class`es with the Java fields.
  - A subject's grade array is an `array?<real>` that aliases its caller's array,
    as the Java constructor does.
  - A cohort's subjects are an `array<Asignatura?>`.
- `Grupo.Tabla()` reads the grades of every subject as a value. The cohort
  queries are stated against the functions in module `Grupos` over that value.
- A Java `double` grade is a `real`. It is exact, so there is no rounding.
  - Where the Java result can be NaN (the mean of an empty array, or the mean over
    zero subjects), the result type is `JDouble`, which also has a `NaN` case.
  - Java's `media > mejorMedia` on such a value is `Greater`, which is false for NaN.
- The sentinel seeds of the scans are exact constants:
  - `Double.MIN_VALUE` = 2^-1074 and `Double.MAX_VALUE`.
  - `Integer.MAX_VALUE` and `Integer.MIN_VALUE`.

  Each scan is specified by a seeded left fold in module `Scans`: `MinFrom`,
  `MaxFrom`, `ArgMinFrom` and `ArgMaxFrom`. The lemmas there say what the folds
  compute.
- Module `Prueba` computes what the ledger answers for the sample cohort. It uses
  the general lemmas, the method contracts, and lemmas that unroll the folds over
  the sample data.

Modules and files:

| file | module | models |
|---|---|---|
| java.dfy | `Java` | `Option`, `JDouble`, the Java constants |
| scans.dfy | `Scans` | sums, counts, index lists and seeded min/max scans, with their characterising lemmas |
| asignatura.dfy | `Asignaturas` | the class `Asignatura` (src/Asignatura.java) |
| grupo.dfy | `Grupos` | the class `Grupo` (src/Grupo.java) |
| fixture.dfy | `Prueba` | the sample cohort built by `inicializarArrays`, and clients of both classes |

## Model

| member | source | states |
|---|---|---|
| Asignaturas.Asignatura.constructor | src/Asignatura.java:18-20 | a subject made from a name alone has that name and no grades |
| Asignaturas.Asignatura.WithNotas | src/Asignatura.java:27-32 | a subject made with a grade array keeps that very array (an alias, not a copy) |
| Asignaturas.Asignatura.Media | src/Asignatura.java:92-104 | the mean: -1 with no grades, NaN for an empty array, otherwise the sum of the grades divided by their number |
| Asignaturas.Asignatura.Minimo | src/Asignatura.java:110-123 | -1 with no grades; otherwise the least grade, where the seed Double.MAX_VALUE is returned if no grade is below it |
| Asignaturas.Asignatura.Maximo | src/Asignatura.java:129-142 | -1 with no grades; otherwise the greatest grade, where the seed Double.MIN_VALUE is returned if no grade exceeds it |
| Asignaturas.Asignatura.TotalSuspensos | src/Asignatura.java:148-161 | -1 with no grades; otherwise the number of grades below 5 |
| Asignaturas.Asignatura.TotalAprobados | src/Asignatura.java:167-180 | -1 with no grades; otherwise the number of grades of at least 5 |
| Asignaturas.Asignatura.CambiarNota | src/Asignatura.java:188-198 | the grade at `alumno` becomes `nota` exactly when there are grades, `nota` is in [0, 10] and the index is in range; otherwise nothing changes; the array itself is never replaced |
| Asignaturas.Asignatura.MejorAlumno | src/Asignatura.java:203-216 | -1 with no grades; otherwise the first index holding the greatest grade, or -1 if no grade exceeds Double.MIN_VALUE |
| Asignaturas.Asignatura.PeorAlumno | src/Asignatura.java:222-235 | -1 with no grades; otherwise the first index holding the least grade, or -1 if no grade is below Double.MAX_VALUE |
| Asignaturas.Asignatura.NotaAlumno | src/Asignatura.java:243-251 | the grade at the index when there are grades and the index is in range, -1 otherwise |
| Asignaturas.Asignatura.DameAprobados | src/Asignatura.java:257-272 | null with no grades or no passes; otherwise a new array holding exactly the passing indices, each once, in increasing order |
| Asignaturas.Asignatura.DameSuspensos | src/Asignatura.java:278-293 | null with no grades or no fails; otherwise a new array holding exactly the failing indices, each once, in increasing order |
| Asignaturas.IndicesInto | src/Asignatura.java:261-269 | the loop shared by both listings fills an array of length `total` with the indices satisfying the band, in order |
| Asignaturas.Asignatura.PrimerMenor | src/Asignatura.java:300-317 | the first index whose grade is strictly below `nota`; -1 exactly when there are no grades, `nota` is outside [0, 10] or no grade is below it |
| Asignaturas.Asignatura.Ordenar | src/Asignatura.java:323-331 | null with no grades; otherwise a new array that is sorted and is a permutation of the grades, which are left unchanged |
| Asignaturas.CopyOf | src/Asignatura.java:327 | a new array with the same contents |
| Asignaturas.Sort | src/Asignatura.java:328 | sorts the array in place into a permutation of its old contents |
| Asignaturas.Insert | src/Asignatura.java:328 | one insertion step: extends the sorted prefix by one element without changing the multiset |
| Asignaturas.IntercambioOrdena | src/Asignatura.java:328 | swapping an out-of-order element one step left keeps the prefix ordered except at the element's new position |
| Asignaturas.Asignatura.AnalizaGrupo | src/Asignatura.java:340-371 | no grades gives the "no grades" message; otherwise the verdict of the three band counts against `(n / 3) * 2`, and every group of fewer than three is "fenomenal" |
| Asignaturas.ClasificaPorUmbral | src/Asignatura.java:340-371 | each verdict holds exactly when its band reaches the threshold (`>=`) and every earlier band does not |
| Asignaturas.BandasParticion | src/Asignatura.java:349-355 | the three bands partition the grades: their counts add up to the number of students |
| Asignaturas.DosTerciosFrenteASuelo | src/Asignatura.java:346 | the truncating threshold equals the floor of 2n/3, except that it is one lower when n leaves remainder 2 modulo 3 |
| Asignaturas.TodoSuspenso | src/Asignatura.java:340-371 | grades that all fail are "fenomenal" when the threshold is zero and "mal" otherwise |
| Asignaturas.AprobadosMasSuspensos | src/Asignatura.java:148-180 | the passes and the fails add up to the number of grades |
| Asignaturas.MinimoMediaMaximo | src/Asignatura.java:92-142 | for a non-empty grade array, minimum <= mean <= maximum |
| Asignaturas.MediaEntre | src/Asignatura.java:92-104 | the mean lies between any lower and upper bound of the grades |
| Asignaturas.MaximoSinPositivos | src/Asignatura.java:129-142 | with no positive grade (all zeros, say), the maximum is the seed Double.MIN_VALUE, not 0 |
| Asignaturas.AprobadosTrasCambio | src/Asignatura.java:188-198 | overwriting one grade changes the pass count by the old grade's and the new grade's pass status |
| Scans.MinFromIsLeast | src/Asignatura.java:110-123 | the seeded minimum is at most the seed and every element, and equals one of them |
| Scans.MaxFromIsGreatest | src/Asignatura.java:129-142 | the seeded maximum is at least the seed and every element, and equals one of them |
| Scans.ArgMinFromIsFirstLeast | src/Asignatura.java:222-235 | the index is -1 exactly when no element is below the seed; otherwise it holds the least element and no earlier index does |
| Scans.ArgMaxFromIsFirstGreatest | src/Asignatura.java:203-216 | the index is -1 exactly when no element exceeds the seed; otherwise it holds the greatest element and no earlier index does |
| Scans.IndicesWhereExactly | src/Asignatura.java:257-293 | the index list is strictly increasing, within range, and contains exactly the indices whose element satisfies the predicate |
| Scans.CountNoneOrAll | src/Asignatura.java:148-180 | a count is 0 exactly when no element qualifies, and the full length exactly when every element does |
| Scans.SumBetween | src/Asignatura.java:92-104 | elements between `lo` and `hi` give a sum between `n * lo` and `n * hi` |
| Scans.CountUpdate | src/Asignatura.java:188-198 | overwriting one element changes a count by the old and new elements' membership |
| Grupos.Grupo.constructor | src/Grupo.java:23-30 | the "Prueba" cohort: ten named students and five subjects holding the sample grades; every subject and grade array is newly allocated and distinct from the others |
| Grupos.Grupo.Crear | src/Grupo.java:38-46 | a cohort of the given sizes whose subject slots are all empty |
| Grupos.Grupo.InicializarArrays | src/Grupo.java:52-80 | fills the names and the five named subjects with the sample grade arrays, each subject new and over a new array of its own |
| Grupos.Grupo.NombresPrueba | src/Grupo.java:54-63 | the ten sample names, in order |
| Grupos.NuevaAsignatura | src/Grupo.java:66-79 | a new subject with the given name whose new array holds the given grades |
| Grupos.Grupo.DameAsignaturaMinima | src/Grupo.java:160-171 | the name of the first subject with the least minimum, scanned from Integer.MAX_VALUE; "" if no minimum is below the seed |
| Grupos.Grupo.DameAsignaturaMaxima | src/Grupo.java:177-188 | the name of the first subject with the greatest maximum, scanned from Integer.MIN_VALUE; "" if no maximum is above the seed |
| Grupos.Grupo.DameMediaAsignatura | src/Grupo.java:197-208 | the mean of the subject at the index, or -1 for an index below 0 or above the number of subjects |
| Grupos.Grupo.DameAlumnoMedia | src/Grupo.java:216-234 | -1 for a rejected index; NaN with no subjects; otherwise the sum of the student's `notaAlumno` over the subjects divided by their number |
| Grupos.Grupo.DameAlumnoSuspensos | src/Grupo.java:242-259 | -1 exactly for a rejected index; otherwise the number of subjects in which the student's grade is below 5, between 0 and the number of subjects |
| Grupos.Medias | src/Grupo.java:329-331 | one mean per student, each the one `dameAlumnoMedia` returns |
| Grupos.Suspensos | src/Grupo.java:242-259 | one fail count per student, each the one `dameAlumnoSuspensos` returns |
| Grupos.AlumnoMediaUnoPasado | src/Grupo.java:220 | the index one past the last student passes the guard, and its mean is -1 from the per-subject fallbacks |
| Grupos.AlumnoSuspensosUnoPasado | src/Grupo.java:246 | the index one past the last student passes the guard and counts as failing every subject |
| Grupos.AusenteCuentaComoSuspenso | src/Grupo.java:252-256 | a subject without grades counts as a fail for every accepted student: the fail count rises by one exactly when the student had passed it |
| Grupos.AusenteSumaMenosUno | src/Grupo.java:226-228 | a subject without grades adds -1 to a student's sum instead of being skipped |
| Grupos.Grupo.DameMejorAlumnoMedia | src/Grupo.java:266-280 | the name of the first student with the greatest mean, scanned from Double.MIN_VALUE; " " if no mean exceeds the seed or there are no subjects |
| Grupos.MejorSigue | src/Grupo.java:272-277 | one loop step, given the mean `dameAlumnoMedia` returns, keeps the running maximum of the means and the name of its first holder; with no subjects the NaN mean never replaces the best |
| Grupos.MejorAlumnoMediaPrimero | src/Grupo.java:266-280 | the chosen student is none exactly when no mean exceeds the seed; otherwise no mean is larger and every earlier mean is smaller |
| Grupos.Grupo.MuestraRepetidores | src/Grupo.java:304-310 | the names printed, in student order, are those at the repeaters' positions |
| Grupos.RepetidoresExactamente | src/Grupo.java:304-310 | the repeaters are exactly the students with more than two fails, each once, in increasing order |
| Grupos.NombresEnSigue | src/Grupo.java:305-308 | one loop step keeps the printed names matched to the repeater positions so far |
| Grupos.Grupo.AnalizaAsignaturas | src/Grupo.java:315-321 | one verdict per subject, in subject order, each that subject's `analizaGrupo` |
| Grupos.Grupo.AnalizaCurso | src/Grupo.java:326-337 | the verdict of a subject whose grades are the students' means; with no subjects, the all-NaN verdict |
| Grupos.Grupo.MediasAlumnos | src/Grupo.java:327-331 | a new array holding every student's mean, in student order |
| Prueba.EstadisticasMates | src/Grupo.java:66-67 | the "Mates" subject: mean 6.9, minimum 3, maximum 10, eight passes and two fails |
| Prueba.FisicaFenomenal | src/Grupo.java:69-70 | the "Fisica" subject: all ten grades are above 7, against a threshold of 6, so it is "fenomenal" |
| Prueba.UmbralInclusivo | src/Asignatura.java:346-359 | six grades above 7 out of ten reach the threshold 6, although they are fewer than two thirds |
| Prueba.VeredictosPrueba | src/Grupo.java:66-79 | the sample subjects' verdicts: subgroups, fenomenal, subgroups, subgroups, subgroups |
| Prueba.ColumnaPrueba | src/Grupo.java:66-79 | each sample student's column equals the row of the sample grades |
| Prueba.AlumnoPrueba | src/Grupo.java:216-259 | each sample student's fails and mean in terms of that row |
| Prueba.SuspensosPrueba | src/Grupo.java:242-259 | the sample students' fail counts are 0, 0, 1, 0, 0, 1, 4, 3, 2, 3 |
| Prueba.RepetidoresPrueba | src/Grupo.java:304-310 | the sample repeaters are students 6, 7 and 9 |
| Prueba.JavierSinMates | src/Grupo.java:242-259 | "Javier" fails two subjects, or three once "Mates" has no grades |
| Prueba.MediasPrueba | src/Grupo.java:216-234 | the sample students' means are 8.4, 7.6, 7.4, 7.2, 7.8, 7.0, 4.6, 5.2, 5.2, 4.4 |
| Prueba.CursoPrueba | src/Grupo.java:266-280 | the best sample student is student 0, and the cohort verdict is subgroups |
| Prueba.MinimosPrueba | src/Grupo.java:160-171 | the sample minima are 3, 8, 2, 0, 1, and the first least one is subject 3 |
| Prueba.MaximosPrueba | src/Grupo.java:177-188 | the sample maxima are 10, 10, 10, 9, 10, and the first greatest one is subject 0 |
| Prueba.InformeMinima | src/Grupo.java:160-171 | on the sample cohort the subject with the least minimum is "Diseño" |
| Prueba.InformeMaxima | src/Grupo.java:177-188 | on the sample cohort the subject with the greatest maximum is "Mates" |
| Prueba.InformeAsignaturas | src/Grupo.java:315-321 | on the sample cohort only "Fisica" is "fenomenal" |
| Prueba.InformeCurso | src/Grupo.java:266-337 | on the sample cohort the best student is "Pablo" and the course verdict is subgroups |
| Prueba.InformeRepetidores | src/Grupo.java:304-310 | on the sample cohort the repeaters are "Pedro", "Sofía" and "Isabel" |
| Prueba.InformeIndices | src/Grupo.java:197-259 | on the sample cohort the mean of subject 0 is 6.9 and "Javier" fails two subjects |
| Prueba.InformeUnoPasado | src/Grupo.java:216-259 | with index 10 in a cohort of ten, the mean is -1 and the fail count is 5; index 11 is rejected |
| Prueba.PedroApruebaMates | src/Grupo.java:242-259 | raising Pedro's "Mates" grade from 3 to 5 leaves him three fails instead of four |
| Prueba.InformeCambio | src/Asignatura.java:188-198 | in the sample cohort, `cambiarNota(5.0, 6)` on "Mates" leaves the cohort's grades equal to the sample grades with that one grade replaced, so every other subject is untouched; Pedro's fails drop from four to three |
| Prueba.EjemploDiseno | src/Asignatura.java:188-317 | on the "Diseño" grades, the first grade below 5 is at index 5; an out-of-range grade or index changes nothing; a valid change overwrites exactly that grade |

## Left out

- Console input is not modelled, because it is I/O and the model takes no input
  from a user. This covers `leerNotas`, `leerNota`, `leerAlumnos` and
  `leerAsignaturas`, along with their retry loops on malformed input.
- `leerAlumnos` sorts the names after reading them (src/Grupo.java:100). This
  breaks the link between a name and its grades, but it happens only after console
  input, so it is not modelled.
- Printing is not modelled: `toString`, `mostrarAlumnos`, `mostrarAsignaturas`,
  `mostrarMedias` and `muestraMediaAlumnos`.
  - The messages that `analizaGrupo` and the index guards print are not modelled
    either.
  - The `analizaGrupo` messages become the `Veredicto` constructors.
  - `muestraRepetidores` returns the printed names as a sequence.
- `getNombreAsignatura` is the field `nombreAsignatura` itself.
- Grades are exact reals, so IEEE rounding of sums and quotients is not modelled.
  - The sample means are therefore the exact decimals.
  - NaN appears only as the `JDouble.NaN` result, never as a stored grade.
- NaN or infinite grades inside an array are not modelled, because a grade is a
  `real`.
- `Arrays.copyOf` and `Arrays.sort` are modelled by `CopyOf` and an insertion
  sort. Both are specified only by their results (a copy; sorted and a
  permutation), not by the library's algorithm.
- `Grupos.Grupo.Crear` fills the names with "" where Java leaves them null,
  because names are plain strings.
- `Grupos.Grupo.Crear` requires non-negative sizes, because Java throws
  `NegativeArraySizeException` otherwise.
- The cohort queries require `Valid()` on every call. It asks for three things:
  - `totalAlumnos` and `totalAsignaturas` equal the lengths of the two arrays,
    as both Java constructors set them up;
  - every subject slot holds a subject;
  - `Repr` holds the subject array, the subjects and their grade arrays.

  Java throws `NullPointerException` only when a query reaches an empty slot
  (after `Crear` and before `leerAsignaturas`), and exceptions are not modelled.
  But some calls never reach a slot, and Java completes them normally. The model
  leaves these out as well:
  - a rejected index, for which `dameMediaAsignatura`, `dameAlumnoMedia` and
    `dameAlumnoSuspensos` return -1 (src/Grupo.java:201-202, 220-221, 246-247);
  - a cohort of zero students, where the student loops do not run.
- DameMediaAsignatura: requires `indice != totalAsignaturas`. The guard lets that
  index through and Java then throws `ArrayIndexOutOfBoundsException`.
- The cohort functions assume that every present grade array has one grade per
  student (`UnaNotaPorAlumno`) wherever a lemma needs it. The Java code never
  checks this.
- Grupos.Medias, Grupos.Grupo.MediasAlumnos: both are defined only when there is
  at least one subject. With no subjects each mean is 0/0, a NaN
  (src/Grupo.java:231), which cannot be a `real` entry. For that case,
  `Grupos.Grupo.DameAlumnoMedia` returns `NaN`, and `Grupos.Grupo.AnalizaCurso`
  and `Grupos.Grupo.DameMejorAlumnoMedia` state the zero-subject outcome directly.
- Grupos.Grupo.AnalizaCurso: with no subjects, every mean is NaN, and NaN cannot
  be stored as a grade here. So this case is stated as its outcome rather than run
  through `analizaGrupo`: every NaN falls in the bottom band, as
  `Asignaturas.TodoSuspenso` shows for grades that all fail.
- `analizaGrupo`'s documentation says "more than two thirds", but the code
  compares with `>=` against the truncated threshold `(n / 3) * 2`. The model
  follows the code; `Prueba.UmbralInclusivo` and
  `Asignaturas.DosTerciosFrenteASuelo` show where the two differ.
