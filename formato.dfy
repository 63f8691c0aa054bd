/**
 * The two renderings of a recipe: the pretty form of Receta.toString and the
 * raw form of Receta.toRawString, as line sequences joined by Lineas, with
 * a reader for each form that recovers the recipe's contents.
 */
module Formato {
  import opened Lineas
  import Decimal

  datatype Option<T> = None | Some(value: T)

  /** What a rendering shows of a recipe: its name and its two filled lists. */
  datatype Contenido = Contenido(nombre: string, ingredientes: seq<string>, instrucciones: seq<string>)

  const ENCABEZADO_INGREDIENTES := "Ingredientes:"
  const ENCABEZADO_INSTRUCCIONES := "Instrucciones:"
  const MARCA_INSTRUCCIONES := "INSTRUCCIONES"
  const CIERRE := "-----"

  predicate HasPrefix(l: string, p: string) {
    |p| <= |l| && l[..|p|] == p
  }

  // ---------------------------------------------------------------------------
  // Pretty form

  /** Prefix of the line of the step at 0-based index i: "<i+1>. ". */
  function StepPrefix(i: nat): string {
    Decimal.NatToString(i + 1) + ". "
  }

  /** The list lines of the ingredients: "- " then the ingredient. */
  function Dashed(xs: seq<string>): seq<string> {
    seq(|xs|, i requires 0 <= i < |xs| => "- " + xs[i])
  }

  /** The list lines of the instructions, numbered from 1. */
  function Numbered(xs: seq<string>): seq<string> {
    seq(|xs|, i requires 0 <= i < |xs| => StepPrefix(i) + xs[i])
  }

  lemma DashedSnoc(xs: seq<string>, i: nat)
    requires i < |xs|
    ensures Dashed(xs[..i + 1]) == Dashed(xs[..i]) + ["- " + xs[i]]
  {
  }

  lemma NumberedSnoc(xs: seq<string>, i: nat)
    requires i < |xs|
    ensures Numbered(xs[..i + 1]) == Numbered(xs[..i]) + [StepPrefix(i) + xs[i]]
  {
  }

  function PrettyLines(nombre: string, ingredientes: seq<string>, instrucciones: seq<string>): seq<string> {
    ["Receta: " + nombre, ENCABEZADO_INGREDIENTES] + Dashed(ingredientes)
    + [ENCABEZADO_INSTRUCCIONES] + Numbered(instrucciones)
  }

  /** The pretty form, every line newline-terminated. */
  function Pretty(nombre: string, ingredientes: seq<string>, instrucciones: seq<string>): string {
    JoinLines(PrettyLines(nombre, ingredientes, instrucciones))
  }

  /** Number of leading lines of ls that start with "- ". */
  function CountDashed(ls: seq<string>): (k: nat)
    ensures k <= |ls|
    ensures forall i :: 0 <= i < k ==> HasPrefix(ls[i], "- ")
    ensures k < |ls| ==> !HasPrefix(ls[k], "- ")
  {
    if ls == [] || !HasPrefix(ls[0], "- ") then 0 else 1 + CountDashed(ls[1..])
  }

  function Undashed(ls: seq<string>): seq<string> {
    seq(|ls|, i requires 0 <= i < |ls| => if |ls[i]| >= 2 then ls[i][2..] else ls[i])
  }

  /** The steps of numbered lines, or None when a line lacks its number. */
  function Unnumbered(ls: seq<string>): Option<seq<string>> {
    if forall i :: 0 <= i < |ls| ==> HasPrefix(ls[i], StepPrefix(i)) then
      Some(seq(|ls|, i requires 0 <= i < |ls| && HasPrefix(ls[i], StepPrefix(i)) => ls[i][|StepPrefix(i)|..]))
    else
      None
  }

  /** Reads the lines of a pretty form back into the contents they show. */
  function ParsePrettyLines(ls: seq<string>): Option<Contenido> {
    if |ls| < 3 || !HasPrefix(ls[0], "Receta: ") || ls[1] != ENCABEZADO_INGREDIENTES then None
    else
      var k := CountDashed(ls[2..]);
      if 2 + k == |ls| || ls[2 + k] != ENCABEZADO_INSTRUCCIONES then None
      else
        match Unnumbered(ls[3 + k..])
        case None => None
        case Some(pasos) => Some(Contenido(ls[0][8..], Undashed(ls[2..2 + k]), pasos))
  }

  /** Reads a pretty form back into the contents it shows. */
  function ParsePretty(s: string): Option<Contenido> {
    ParsePrettyLines(SplitLines(s))
  }

  lemma CountDashedOf(xs: seq<string>, rest: seq<string>)
    requires rest != [] && !HasPrefix(rest[0], "- ")
    ensures CountDashed(Dashed(xs) + rest) == |xs|
  {
    var ls := Dashed(xs) + rest;
    assert forall i :: 0 <= i < |xs| ==> ls[i] == "- " + xs[i] && ls[i][..2] == "- ";
    assert ls[|xs|] == rest[0];
  }

  lemma UndashedDashed(xs: seq<string>)
    ensures Undashed(Dashed(xs)) == xs
  {
  }

  lemma UnnumberedNumbered(xs: seq<string>)
    ensures Unnumbered(Numbered(xs)) == Some(xs)
  {
    var ls := Numbered(xs);
    forall i | 0 <= i < |ls|
      ensures HasPrefix(ls[i], StepPrefix(i)) && ls[i][|StepPrefix(i)|..] == xs[i]
    {
      assert ls[i] == StepPrefix(i) + xs[i];
    }
    assert Unnumbered(ls).Some?;
    var r := Unnumbered(ls).value;
    assert |r| == |xs|;
    assert forall i :: 0 <= i < |xs| ==> r[i] == xs[i];
    assert r == xs;
  }

  /** Every list line of the pretty form is told apart from its headers. */
  lemma {:induction false} ParsePrettyLinesOf(nombre: string, ingredientes: seq<string>, instrucciones: seq<string>)
    ensures ParsePrettyLines(PrettyLines(nombre, ingredientes, instrucciones))
         == Some(Contenido(nombre, ingredientes, instrucciones))
  {
    var ls := PrettyLines(nombre, ingredientes, instrucciones);
    var d, n := Dashed(ingredientes), Numbered(instrucciones);
    var k := |ingredientes|;
    assert ls[2..] == d + ([ENCABEZADO_INSTRUCCIONES] + n);
    assert ENCABEZADO_INSTRUCCIONES[..2][0] != "- "[0];
    CountDashedOf(ingredientes, [ENCABEZADO_INSTRUCCIONES] + n);
    assert ls[2 + k] == ENCABEZADO_INSTRUCCIONES;
    assert ls[3 + k..] == n;
    UnnumberedNumbered(instrucciones);
    assert ls[0] == "Receta: " + nombre;
    assert ls[0][8..] == nombre;
    assert ls[2..2 + k] == d;
    UndashedDashed(ingredientes);
  }

  lemma PrettyLinesNoNewline(nombre: string, ingredientes: seq<string>, instrucciones: seq<string>)
    requires NoNewline(nombre) && AllNoNewline(ingredientes) && AllNoNewline(instrucciones)
    ensures AllNoNewline(PrettyLines(nombre, ingredientes, instrucciones))
  {
  }

  /**
   * The pretty form can be read back: a recipe whose name and entries hold
   * no newline is recovered exactly from its pretty form.
   */
  lemma PrettyRoundTrip(nombre: string, ingredientes: seq<string>, instrucciones: seq<string>)
    requires NoNewline(nombre) && AllNoNewline(ingredientes) && AllNoNewline(instrucciones)
    ensures ParsePretty(Pretty(nombre, ingredientes, instrucciones)) == Some(Contenido(nombre, ingredientes, instrucciones))
  {
    PrettyLinesNoNewline(nombre, ingredientes, instrucciones);
    SplitJoinLines(PrettyLines(nombre, ingredientes, instrucciones));
    ParsePrettyLinesOf(nombre, ingredientes, instrucciones);
  }

  // ---------------------------------------------------------------------------
  // Raw form

  function RawLines(nombre: string, ingredientes: seq<string>, instrucciones: seq<string>): seq<string> {
    [nombre] + ingredientes + [MARCA_INSTRUCCIONES] + instrucciones + [CIERRE]
  }

  /** The raw form, every line newline-terminated. */
  function Raw(nombre: string, ingredientes: seq<string>, instrucciones: seq<string>): string {
    JoinLines(RawLines(nombre, ingredientes, instrucciones))
  }

  /** Index of the first occurrence of x in ls, or |ls| when there is none. */
  function IndexOf(ls: seq<string>, x: string): (k: nat)
    ensures k <= |ls|
    ensures k < |ls| ==> ls[k] == x
    ensures forall j :: 0 <= j < k ==> ls[j] != x
  {
    if ls == [] || ls[0] == x then 0 else 1 + IndexOf(ls[1..], x)
  }

  /**
   * Reads the lines of a raw form the way a consumer splits them: the first
   * line is the name, the lines up to "INSTRUCCIONES" the ingredients, the
   * lines after it up to "-----" the instructions.
   */
  function ParseRawLines(ls: seq<string>): Option<Contenido> {
    if ls == [] then None
    else
      var cuerpo := ls[1..];
      var i := IndexOf(cuerpo, MARCA_INSTRUCCIONES);
      if i == |cuerpo| then None
      else
        var resto := cuerpo[i + 1..];
        var j := IndexOf(resto, CIERRE);
        if j == |resto| then None
        else Some(Contenido(ls[0], cuerpo[..i], resto[..j]))
  }

  /** Reads a raw form back into the contents it shows. */
  function ParseRaw(s: string): Option<Contenido> {
    ParseRawLines(SplitLines(s))
  }

  lemma IndexOfFirst(a: seq<string>, x: string, b: seq<string>)
    requires x !in a
    ensures IndexOf(a + [x] + b, x) == |a|
  {
    var ls := a + [x] + b;
    assert ls[|a|] == x;
    assert forall j :: 0 <= j < |a| ==> ls[j] == a[j];
  }

  /** The markers delimit the lists as long as no entry equals its marker. */
  lemma ParseRawLinesOf(nombre: string, ingredientes: seq<string>, instrucciones: seq<string>)
    requires MARCA_INSTRUCCIONES !in ingredientes && CIERRE !in instrucciones
    ensures ParseRawLines(RawLines(nombre, ingredientes, instrucciones))
         == Some(Contenido(nombre, ingredientes, instrucciones))
  {
    var ls := RawLines(nombre, ingredientes, instrucciones);
    var cuerpo := ls[1..];
    assert cuerpo == ingredientes + [MARCA_INSTRUCCIONES] + (instrucciones + [CIERRE]);
    IndexOfFirst(ingredientes, MARCA_INSTRUCCIONES, instrucciones + [CIERRE]);
    var i := |ingredientes|;
    assert cuerpo[..i] == ingredientes;
    var resto := cuerpo[i + 1..];
    assert resto == instrucciones + [CIERRE] + [];
    IndexOfFirst(instrucciones, CIERRE, []);
    assert resto[..|instrucciones|] == instrucciones;
  }

  lemma RawLinesNoNewline(nombre: string, ingredientes: seq<string>, instrucciones: seq<string>)
    requires NoNewline(nombre) && AllNoNewline(ingredientes) && AllNoNewline(instrucciones)
    ensures AllNoNewline(RawLines(nombre, ingredientes, instrucciones))
  {
  }

  /**
   * The raw form can be read back when the names and entries hold no newline,
   * no ingredient is the line "INSTRUCCIONES" and no instruction is "-----".
   */
  lemma RawRoundTrip(nombre: string, ingredientes: seq<string>, instrucciones: seq<string>)
    requires NoNewline(nombre) && AllNoNewline(ingredientes) && AllNoNewline(instrucciones)
    requires MARCA_INSTRUCCIONES !in ingredientes && CIERRE !in instrucciones
    ensures ParseRaw(Raw(nombre, ingredientes, instrucciones)) == Some(Contenido(nombre, ingredientes, instrucciones))
  {
    RawLinesNoNewline(nombre, ingredientes, instrucciones);
    SplitJoinLines(RawLines(nombre, ingredientes, instrucciones));
    ParseRawLinesOf(nombre, ingredientes, instrucciones);
  }

  /**
   * Without the side condition on the markers the raw form is ambiguous: an
   * ingredient "INSTRUCCIONES" and an instruction "INSTRUCCIONES" render alike.
   */
  lemma RawAmbiguous()
    ensures Raw("R", [MARCA_INSTRUCCIONES], []) == Raw("R", [], [MARCA_INSTRUCCIONES])
    ensures Contenido("R", [MARCA_INSTRUCCIONES], []) != Contenido("R", [], [MARCA_INSTRUCCIONES])
  {
    assert RawLines("R", [MARCA_INSTRUCCIONES], []) == RawLines("R", [], [MARCA_INSTRUCCIONES]);
  }

  /** With both lists empty only the headers and markers remain. */
  lemma EmptyForms()
    ensures Pretty("Agua", [], []) == "Receta: Agua\nIngredientes:\nInstrucciones:\n"
    ensures Raw("Agua", [], []) == "Agua\nINSTRUCCIONES\n-----\n"
  {
    assert Dashed([]) == [] && Numbered([]) == [];
    var a, b, c := "Receta: Agua", ENCABEZADO_INGREDIENTES, ENCABEZADO_INSTRUCCIONES;
    assert "Receta: " + "Agua" == a;
    assert PrettyLines("Agua", [], []) == [a] + [b] + [c];
    JoinLinesSnoc([], a);
    assert [] + [a] == [a];
    JoinLinesSnoc([a], b);
    JoinLinesSnoc([a] + [b], c);
    assert RawLines("Agua", [], []) == ["Agua"] + [MARCA_INSTRUCCIONES] + [CIERRE];
    JoinLinesSnoc([], "Agua");
    assert [] + ["Agua"] == ["Agua"];
    JoinLinesSnoc(["Agua"], MARCA_INSTRUCCIONES);
    JoinLinesSnoc(["Agua"] + [MARCA_INSTRUCCIONES], CIERRE);
  }

  /** The lines of both forms of a tortilla with three ingredients and two steps. */
  lemma TortillaLines()
    ensures PrettyLines("Tortilla", ["huevo", "patata", "sal"], ["batir", "freir"])
         == ["Receta: Tortilla", "Ingredientes:", "- huevo", "- patata", "- sal",
             "Instrucciones:", "1. batir", "2. freir"]
    ensures RawLines("Tortilla", ["huevo", "patata", "sal"], ["batir", "freir"])
         == ["Tortilla", "huevo", "patata", "sal", "INSTRUCCIONES", "batir", "freir", "-----"]
  {
    assert "Receta: " + "Tortilla" == "Receta: Tortilla";
    assert "- " + "huevo" == "- huevo" && "- " + "patata" == "- patata" && "- " + "sal" == "- sal";
    assert Dashed(["huevo", "patata", "sal"]) == ["- huevo", "- patata", "- sal"];
    assert Decimal.NatToString(1) == "1" && Decimal.NatToString(2) == "2";
    assert StepPrefix(0) + "batir" == "1. batir" && StepPrefix(1) + "freir" == "2. freir";
    assert Numbered(["batir", "freir"]) == ["1. batir", "2. freir"];
  }
}
