# Receta — a bounded recipe, in Dafny

A `Receta` is a named recipe holding two bounded, append-only lists of
strings: its ingredients and its instructions. Each list lives in a
fixed-size array with a fill counter; the two caps are fixed when the recipe
is built. Appending to a full list is refused with `false` and leaves the
recipe as it was. The recipe renders in two forms: a pretty form
(`toString`) with headers, dashes and 1-based step numbers, and a raw form
(`toRawString`) with one entry per line delimited by the markers
`INSTRUCCIONES` and `-----`.

The project has four modules:

- `Recetas` (receta.dfy): the class `Receta`. The name, the caps and the two
  array references are `const`. The counters are fields that the two append
  methods update, together with one slot of their own array. Two ghost
  sequences, `ListaIngredientes` and `ListaInstrucciones`, hold the abstract
  view: `Valid()` ties each one to the filled prefix of its array and keeps
  each count within its cap. The renderers are methods with `for` loops,
  proved equal to the specification functions of `Formato`. `GetNombre`
  returns the stored name; the constructor's contract says that it is the
  name given. The method `Tortilla` is a client that relies only on the
  contracts: it fills a 3-ingredient, 2-step recipe, sees a fourth
  ingredient refused, and renders both forms, whose lines
  `Formato.TortillaLines` spells out literally.
- `Formato` (formato.dfy): the two renderings as pure functions over the
  name and the two lists (`Pretty`, `Raw`). Each has a reader that inverts
  it (`ParsePretty`, `ParseRaw`) and a round-trip lemma.
- `Lineas` (lines.dfy): newline-terminated text. `JoinLines` puts a `'\n'`
  after every line. `SplitLines` cuts text at every `'\n'` and inverts
  `JoinLines` when no line contains a newline.
- `Decimal` (decimal.dfy): the decimal numeral of a natural number, which
  Java's `StringBuilder.append(int)` writes for the step numbers. It comes
  with its reader and the round-trip lemma.

## Model

| member | source | states |
|---|---|---|
| `Recetas.Receta.constructor` | src/main/java/Receta.java:42-50 | both counts are 0 and both lists empty; the caps and the name equal the arguments; each backing array is fresh and as long as its cap; `Valid()` holds |
| `Recetas.Receta.GetNombre` | src/main/java/Receta.java:57-60 | the stored name, which the constructor sets to its argument and which never changes (`const`) |
| `Recetas.Receta.GetIngredientes` | src/main/java/Receta.java:68-71 | the result is exactly the ingredients added so far, in insertion order, with no unfilled slot, and its length is within the cap |
| `Recetas.Receta.GetInstrucciones` | src/main/java/Receta.java:79-82 | the result is exactly the instructions added so far, in insertion order, with no unfilled slot, and its length is within the cap |
| `Recetas.Receta.AgregarIngrediente` | src/main/java/Receta.java:90-99 | returns true iff the list held fewer than `maxIngredientes` entries; on success the list is the old list plus the new ingredient, the count grows by one, the array slot at the old count holds it and every other slot is unchanged; on failure the object and its array are unchanged; the instructions are never touched; `Valid()` is preserved |
| `Recetas.Receta.AgregarInstruccion` | src/main/java/Receta.java:107-116 | the same as `AgregarIngrediente`, for the instruction list, and the ingredients are never touched |
| `Recetas.Receta.IngredientesCompletos` | src/main/java/Receta.java:124-127 | true iff the ingredient count equals its cap, and false iff it is below the cap |
| `Recetas.Receta.InstruccionesCompletas` | src/main/java/Receta.java:134-137 | true iff the instruction count equals its cap, and false iff it is below the cap |
| `Recetas.Receta.NumIngredientes` | src/main/java/Receta.java:144-147 | the length of the ingredient list, never above its cap |
| `Recetas.Receta.NumInstrucciones` | src/main/java/Receta.java:154-157 | the length of the instruction list, never above its cap |
| `Recetas.Receta.GetMaxIngredientes` | src/main/java/Receta.java:197-200 | the size of the ingredient array, never below the ingredient count |
| `Recetas.Receta.GetMaxInstrucciones` | src/main/java/Receta.java:207-210 | the size of the instruction array, never below the instruction count |
| `Recetas.Receta.ToString` | src/main/java/Receta.java:166-174 | the loops build exactly `Pretty` of the name and the two filled prefixes; the method changes nothing, since it has no `modifies` clause |
| `Recetas.Receta.ToRawString` | src/main/java/Receta.java:182-190 | the loops build exactly `Raw` of the name and the two filled prefixes; the method changes nothing |
| `Formato.PrettyRoundTrip` | src/main/java/Receta.java:166-174 | the pretty form can be read back: when neither the name nor any entry contains a newline, `ParsePretty` recovers the name and both lists exactly |
| `Formato.ParsePrettyLinesOf` | src/main/java/Receta.java:168-172 | the lines of the pretty form identify their parts: dashed lines are the ingredients, the first line not starting with `- ` is the `Instrucciones:` header, and each later line carries its own 1-based number |
| `Formato.PrettyLinesNoNewline` | src/main/java/Receta.java:168-172 | no line of the pretty form contains a newline when the name and the entries contain none (step numbers are all digits) |
| `Formato.RawRoundTrip` | src/main/java/Receta.java:182-190 | the raw form can be read back when nothing contains a newline, no ingredient is `INSTRUCCIONES` and no instruction is `-----` |
| `Formato.ParseRawLinesOf` | src/main/java/Receta.java:184-188 | the line `INSTRUCCIONES` ends the ingredients and the line `-----` ends the instructions, provided no entry equals its marker |
| `Formato.RawLinesNoNewline` | src/main/java/Receta.java:184-188 | no line of the raw form contains a newline when the name and the entries contain none |
| `Formato.RawAmbiguous` | src/main/java/Receta.java:185-187 | the raw form is not injective: an ingredient `INSTRUCCIONES` and an instruction `INSTRUCCIONES` render alike, so the marker condition of `RawRoundTrip` is needed |
| `Formato.EmptyForms` | src/main/java/Receta.java:166-190 | with both lists empty, the pretty form is the three header lines and the raw form is the name followed by the two markers |
| `Formato.TortillaLines` | src/main/java/Receta.java:166-190 | the pretty and raw forms of a tortilla with ingredients huevo, patata, sal and steps batir, freir, as literal line lists: the header lines, one dashed line per ingredient, steps numbered 1 and 2, and the two markers |
| `Decimal.NatToString` | src/main/java/Receta.java:172 | the numeral of a step number is non-empty, all digits, and starts with `0` only for zero |
| `Decimal.ParseNatToString` | src/main/java/Receta.java:172 | reading back the numeral of `n` gives `n` |
| `Decimal.NatToStringInjective` | src/main/java/Receta.java:172 | different step numbers have different numerals |
| `Lineas.SplitJoinLines` | src/main/java/Receta.java:168-173 | cutting newline-terminated lines at their newlines gives back the lines, when none of them contains a newline |
| `Lineas.JoinLinesAppend` | src/main/java/Receta.java:184-189 | rendering two blocks of lines one after the other is rendering their concatenation, as the `StringBuilder` appends do |

## Left out

- Aliasing of the backing arrays: `getIngredientes` and `getInstrucciones`
  return the internal array by reference, unfilled `null` slots included.
  Here they return the filled prefix as a value (`seq<string>`). Changes made
  by callers through the returned array are not modelled.
- Null strings: Java accepts a `null` name or `null` entries; Dafny strings
  are values, so there is no null.
- Negative caps: in Java, allocating the arrays throws. Here the
  constructor requires both caps to be non-negative.
- Java `int` overflow: counts never exceed array sizes, so the counters are
  modelled as `nat`.
- `StringBuilder` is modelled as `string` concatenation. Java's
  `Integer.toString` is modelled by `Decimal.NatToString`.
- Thread safety: the class is not thread-safe and has no concurrency, so
  there is nothing to model.
- `ParseRaw` and `ParsePretty` are readers added to state that the two forms
  can be read back. The Java class has no parser.
