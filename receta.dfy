/**
 * A recipe: a name and two bounded, append-only lists of strings, the
 * ingredients and the instructions, each kept in a fixed-size array with a
 * fill counter whose cap is fixed at construction.
 */
module Recetas {
  import opened Lineas
  import Decimal
  import Formato

  class Receta {
    // The name and the caps never change after construction, nor do the
    // arrays themselves; only the arrays' slots and the counters do.
    const nombre: string
    const maxIngredientes: nat
    const maxInstrucciones: nat
    const ingredientes: array<string>
    const instrucciones: array<string>
    var numIngredientes: nat
    var numInstrucciones: nat

    // Abstract view: the filled prefix of each array, in insertion order.
    ghost var ListaIngredientes: seq<string>
    ghost var ListaInstrucciones: seq<string>

    ghost predicate Valid()
      reads this, ingredientes, instrucciones
    {
      ingredientes != instrucciones &&
      ingredientes.Length == maxIngredientes &&
      instrucciones.Length == maxInstrucciones &&
      numIngredientes <= maxIngredientes &&
      numInstrucciones <= maxInstrucciones &&
      ListaIngredientes == ingredientes[..numIngredientes] &&
      ListaInstrucciones == instrucciones[..numInstrucciones]
    }

    /** A recipe with the given name and caps and both lists empty. */
    constructor (nombre: string, maxIngredientes: int, maxInstrucciones: int)
      requires maxIngredientes >= 0 && maxInstrucciones >= 0
      ensures Valid() && fresh(ingredientes) && fresh(instrucciones)
      ensures this.nombre == nombre
      ensures this.maxIngredientes == maxIngredientes && this.maxInstrucciones == maxInstrucciones
      ensures ingredientes.Length == maxIngredientes && instrucciones.Length == maxInstrucciones
      ensures numIngredientes == 0 && numInstrucciones == 0
      ensures ListaIngredientes == [] && ListaInstrucciones == []
    {
      this.nombre := nombre;
      this.maxIngredientes := maxIngredientes;
      this.maxInstrucciones := maxInstrucciones;
      this.ingredientes := new string[maxIngredientes];
      this.instrucciones := new string[maxInstrucciones];
      this.numIngredientes := 0;
      this.numInstrucciones := 0;
      ListaIngredientes := [];
      ListaInstrucciones := [];
    }

    /** The recipe's name, fixed by the constructor. */
    function GetNombre(): (n: string)
      ensures n == nombre
    {
      nombre
    }

    /**
     * The ingredients added so far, in order: the filled prefix of the
     * backing array, without its unfilled slots.
     */
    function GetIngredientes(): (s: seq<string>)
      reads this, ingredientes, instrucciones
      requires Valid()
      ensures s == ListaIngredientes
      ensures |s| <= maxIngredientes
    {
      ingredientes[..numIngredientes]
    }

    /** The instructions added so far, in order. */
    function GetInstrucciones(): (s: seq<string>)
      reads this, ingredientes, instrucciones
      requires Valid()
      ensures s == ListaInstrucciones
      ensures |s| <= maxInstrucciones
    {
      instrucciones[..numInstrucciones]
    }

    /** Whether the ingredient list has reached its cap. */
    function IngredientesCompletos(): (b: bool)
      reads this, ingredientes, instrucciones
      requires Valid()
      ensures b <==> |ListaIngredientes| == maxIngredientes
      ensures !b <==> |ListaIngredientes| < maxIngredientes
    {
      numIngredientes == maxIngredientes
    }

    /** Whether the instruction list has reached its cap. */
    function InstruccionesCompletas(): (b: bool)
      reads this, ingredientes, instrucciones
      requires Valid()
      ensures b <==> |ListaInstrucciones| == maxInstrucciones
      ensures !b <==> |ListaInstrucciones| < maxInstrucciones
    {
      numInstrucciones == maxInstrucciones
    }

    function NumIngredientes(): (n: nat)
      reads this, ingredientes, instrucciones
      requires Valid()
      ensures n == |ListaIngredientes| && n <= maxIngredientes
    {
      numIngredientes
    }

    function NumInstrucciones(): (n: nat)
      reads this, ingredientes, instrucciones
      requires Valid()
      ensures n == |ListaInstrucciones| && n <= maxInstrucciones
    {
      numInstrucciones
    }

    /** The ingredient cap: the backing array's size, never below the count. */
    function GetMaxIngredientes(): (m: nat)
      reads this, ingredientes, instrucciones
      requires Valid()
      ensures m == ingredientes.Length && |ListaIngredientes| <= m
    {
      maxIngredientes
    }

    /** The instruction cap: the backing array's size, never below the count. */
    function GetMaxInstrucciones(): (m: nat)
      reads this, ingredientes, instrucciones
      requires Valid()
      ensures m == instrucciones.Length && |ListaInstrucciones| <= m
    {
      maxInstrucciones
    }

    /**
     * Appends an ingredient when the list is not full. On success the
     * ingredient lands in the slot at the old count and the count grows by
     * one; on rejection nothing changes. The instructions are never touched.
     */
    method AgregarIngrediente(ingrediente: string) returns (esAgregado: bool)
      requires Valid()
      modifies this`numIngredientes, this`ListaIngredientes, ingredientes
      ensures Valid()
      ensures esAgregado <==> old(|ListaIngredientes|) < maxIngredientes
      ensures esAgregado ==> ListaIngredientes == old(ListaIngredientes) + [ingrediente]
      ensures esAgregado ==> numIngredientes == old(numIngredientes) + 1
      ensures esAgregado ==> ingredientes[old(numIngredientes)] == ingrediente
      ensures esAgregado ==> forall j :: 0 <= j < ingredientes.Length && j != old(numIngredientes)
                                     ==> ingredientes[j] == old(ingredientes[j])
      ensures !esAgregado ==> unchanged(this) && unchanged(ingredientes)
      ensures unchanged(instrucciones) && ListaInstrucciones == old(ListaInstrucciones)
    {
      esAgregado := false;
      if !IngredientesCompletos() {
        ingredientes[numIngredientes] := ingrediente;
        numIngredientes := numIngredientes + 1;
        esAgregado := true;
        ListaIngredientes := ListaIngredientes + [ingrediente];
      }
    }

    /**
     * Appends an instruction when the list is not full; the mirror image of
     * AgregarIngrediente.
     */
    method AgregarInstruccion(instruccion: string) returns (esAgregado: bool)
      requires Valid()
      modifies this`numInstrucciones, this`ListaInstrucciones, instrucciones
      ensures Valid()
      ensures esAgregado <==> old(|ListaInstrucciones|) < maxInstrucciones
      ensures esAgregado ==> ListaInstrucciones == old(ListaInstrucciones) + [instruccion]
      ensures esAgregado ==> numInstrucciones == old(numInstrucciones) + 1
      ensures esAgregado ==> instrucciones[old(numInstrucciones)] == instruccion
      ensures esAgregado ==> forall j :: 0 <= j < instrucciones.Length && j != old(numInstrucciones)
                                     ==> instrucciones[j] == old(instrucciones[j])
      ensures !esAgregado ==> unchanged(this) && unchanged(instrucciones)
      ensures unchanged(ingredientes) && ListaIngredientes == old(ListaIngredientes)
    {
      esAgregado := false;
      if !InstruccionesCompletas() {
        instrucciones[numInstrucciones] := instruccion;
        numInstrucciones := numInstrucciones + 1;
        esAgregado := true;
        ListaInstrucciones := ListaInstrucciones + [instruccion];
      }
    }

    /**
     * The pretty form: "Receta: " and the name, "Ingredientes:", one "- "
     * line per ingredient, "Instrucciones:", one "<n>. " line per
     * instruction numbered from 1; every line newline-terminated.
     */
    method ToString() returns (cadena: string)
      requires Valid()
      ensures cadena == Formato.Pretty(nombre, ListaIngredientes, ListaInstrucciones)
    {
      ghost var lineas := ["Receta: " + nombre, Formato.ENCABEZADO_INGREDIENTES];
      cadena := "Receta: " + nombre + "\n";
      cadena := cadena + "Ingredientes:\n";
      JoinLinesSnoc([], lineas[0]);
      JoinLinesSnoc([lineas[0]], lineas[1]);
      assert [lineas[0]] + [lineas[1]] == lineas;
      ghost var cabecera := lineas;
      for i := 0 to numIngredientes
        invariant cadena == JoinLines(lineas)
        invariant lineas == cabecera + Formato.Dashed(ListaIngredientes[..i])
      {
        ghost var linea := "- " + ingredientes[i];
        Formato.DashedSnoc(ListaIngredientes, i);
        JoinLinesSnoc(lineas, linea);
        lineas := lineas + [linea];
        cadena := cadena + "- " + ingredientes[i] + "\n";
      }
      assert ListaIngredientes[..numIngredientes] == ListaIngredientes;
      JoinLinesSnoc(lineas, Formato.ENCABEZADO_INSTRUCCIONES);
      lineas := lineas + [Formato.ENCABEZADO_INSTRUCCIONES];
      cadena := cadena + "Instrucciones:\n";
      ghost var bloque := lineas;
      assert Formato.Numbered(ListaInstrucciones[..0]) == [];
      for i := 0 to numInstrucciones
        invariant cadena == JoinLines(lineas)
        invariant lineas == bloque + Formato.Numbered(ListaInstrucciones[..i])
      {
        ghost var linea := Formato.StepPrefix(i) + instrucciones[i];
        Formato.NumberedSnoc(ListaInstrucciones, i);
        JoinLinesSnoc(lineas, linea);
        lineas := lineas + [linea];
        cadena := cadena + Decimal.NatToString(i + 1) + ". " + instrucciones[i] + "\n";
      }
      assert ListaInstrucciones[..numInstrucciones] == ListaInstrucciones;
    }

    /**
     * The raw form: the name, each ingredient, "INSTRUCCIONES", each
     * instruction and "-----", every line newline-terminated.
     */
    method ToRawString() returns (cadena: string)
      requires Valid()
      ensures cadena == Formato.Raw(nombre, ListaIngredientes, ListaInstrucciones)
    {
      cadena := nombre + "\n";
      JoinLinesSnoc([], nombre);
      assert [] + [nombre] == [nombre];
      for i := 0 to numIngredientes
        invariant cadena == JoinLines([nombre] + ListaIngredientes[..i])
      {
        assert [nombre] + ListaIngredientes[..i + 1] == [nombre] + ListaIngredientes[..i] + [ingredientes[i]];
        JoinLinesSnoc([nombre] + ListaIngredientes[..i], ingredientes[i]);
        cadena := cadena + ingredientes[i] + "\n";
      }
      assert ListaIngredientes[..numIngredientes] == ListaIngredientes;
      var bloque := [nombre] + ListaIngredientes + [Formato.MARCA_INSTRUCCIONES];
      JoinLinesSnoc([nombre] + ListaIngredientes, Formato.MARCA_INSTRUCCIONES);
      cadena := cadena + "INSTRUCCIONES\n";
      assert bloque + ListaInstrucciones[..0] == bloque;
      for i := 0 to numInstrucciones
        invariant cadena == JoinLines(bloque + ListaInstrucciones[..i])
      {
        assert bloque + ListaInstrucciones[..i + 1] == bloque + ListaInstrucciones[..i] + [instrucciones[i]];
        JoinLinesSnoc(bloque + ListaInstrucciones[..i], instrucciones[i]);
        cadena := cadena + instrucciones[i] + "\n";
      }
      assert ListaInstrucciones[..numInstrucciones] == ListaInstrucciones;
      JoinLinesSnoc(bloque + ListaInstrucciones, Formato.CIERRE);
      cadena := cadena + "-----\n";
    }
  }

  /**
   * A client of the contracts alone: a tortilla with three ingredients and
   * two steps fills both lists, then a fourth ingredient is rejected; its
   * two renderings are those of Formato.TortillaLines.
   */
  method Tortilla()
  {
    var r := new Receta("Tortilla", 3, 2);
    var a := r.AgregarIngrediente("huevo");
    var b := r.AgregarIngrediente("patata");
    var c := r.AgregarIngrediente("sal");
    var d := r.AgregarInstruccion("batir");
    var e := r.AgregarInstruccion("freir");
    assert a && b && c && d && e;
    assert r.IngredientesCompletos() && r.InstruccionesCompletas();
    var f := r.AgregarIngrediente("cebolla");
    assert !f;
    assert r.GetIngredientes() == ["huevo", "patata", "sal"];
    assert r.GetInstrucciones() == ["batir", "freir"];
    var p := r.ToString();
    assert p == Formato.Pretty("Tortilla", ["huevo", "patata", "sal"], ["batir", "freir"]);
    var q := r.ToRawString();
    assert q == Formato.Raw("Tortilla", ["huevo", "patata", "sal"], ["batir", "freir"]);
  }
}
