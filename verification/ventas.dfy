/**
 * The sales system of src/tp04/ej04.rs: products with a category and a
 * base price, a table of per-category discounts (percent), and a list of
 * sales, each with a seller, a client, a payment method, a date and lines
 * of product and quantity. A client subscribed to the newsletter gets a
 * further 10% off the whole sale.
 */
module Ventas {
  import opened Wrappers
  import opened Enteros
  import opened Fechas
  import Seqs

  /** `DESCUENTO_GRAL_NEWSLETTER`, in percent. */
  const DescuentoNewsletter: nat := 10

  datatype Producto = Producto(nombre: string, nombreCategoria: string, precioBase: real)

  datatype Persona = Persona(
    nombre: string,
    apellido: string,
    direccion: string,
    dni: nat,
    legajo: nat,
    antiguedad: u8,
    salario: real,
    emailNewsletter: Option<string>)

  datatype MedioPago = TarjetaCredito | TarjetaDebito | Transferencia | Efectivo

  datatype Registro = Registro(producto: Producto, cantidad: u32)

  datatype Venta = Venta(
    vendedor: Persona,
    cliente: Persona,
    medioPago: MedioPago,
    fecha: Fecha,
    registros: seq<Registro>)

  datatype Reporte = Reporte(nombre: string, cantidadVentas: u32)

  /** The category's discount, or 0 when the category is not listed. */
  function Descuento(categorias: map<string, u32>, categoria: string): (d: nat)
    ensures categoria !in categorias ==> d == 0
  {
    if categoria in categorias then categorias[categoria] as nat else 0
  }

  /** One line: the base price less the category discount, times the quantity. */
  function PrecioRegistro(r: Registro, categorias: map<string, u32>): real {
    r.producto.precioBase * (1.0 - Descuento(categorias, r.producto.nombreCategoria) as real / 100.0) * r.cantidad as real
  }

  /** The sum of the lines, added in order. */
  function Subtotal(rs: seq<Registro>, categorias: map<string, u32>): real
    decreases |rs|
  {
    if |rs| == 0 then 0.0
    else Subtotal(rs[..|rs| - 1], categorias) + PrecioRegistro(rs[|rs| - 1], categorias)
  }

  /** The subtotal, less the newsletter discount when the client has a newsletter email. */
  function PrecioFinal(v: Venta, categorias: map<string, u32>): real {
    var descuento := if v.cliente.emailNewsletter.Some? then DescuentoNewsletter as real else 0.0;
    Subtotal(v.registros, categorias) * (1.0 - descuento / 100.0)
  }

  /** The subtotal of two runs of lines is the sum of their subtotals. */
  lemma {:induction false} SubtotalConcat(a: seq<Registro>, b: seq<Registro>, categorias: map<string, u32>)
    ensures Subtotal(a + b, categorias) == Subtotal(a, categorias) + Subtotal(b, categorias)
    decreases |b|
  {
    if |b| == 0 {
      assert a + b == a;
    } else {
      assert (a + b)[..|a + b| - 1] == a + b[..|b| - 1];
      SubtotalConcat(a, b[..|b| - 1], categorias);
    }
  }

  /** With non-negative prices and discounts of at most 100%, no line and no subtotal is negative. */
  lemma {:induction false} SubtotalNoNegativo(rs: seq<Registro>, categorias: map<string, u32>)
    requires forall j :: 0 <= j < |rs| ==> rs[j].producto.precioBase >= 0.0
    requires forall c :: c in categorias ==> categorias[c] <= 100
    ensures Subtotal(rs, categorias) >= 0.0
    decreases |rs|
  {
    if |rs| > 0 {
      SubtotalNoNegativo(rs[..|rs| - 1], categorias);
      var r := rs[|rs| - 1];
      var f := 1.0 - Descuento(categorias, r.producto.nombreCategoria) as real / 100.0;
      assert f >= 0.0;
      assert r.producto.precioBase * f >= 0.0;
    }
  }

  /** The newsletter takes exactly 10% off; without it the final price is the subtotal. */
  lemma PrecioFinalNewsletter(v: Venta, categorias: map<string, u32>)
    ensures v.cliente.emailNewsletter.Some? ==> PrecioFinal(v, categorias) == 0.9 * Subtotal(v.registros, categorias)
    ensures v.cliente.emailNewsletter.None? ==> PrecioFinal(v, categorias) == Subtotal(v.registros, categorias)
  {
  }

  /** `any` over the lines: some line's product is of the category. */
  predicate TieneCategoria(v: Venta, categoria: string) {
    exists j :: 0 <= j < |v.registros| && v.registros[j].producto.nombreCategoria == categoria
  }

  /** The sales with at least one line in the category, each counted once. */
  function VentasCategoria(ventas: seq<Venta>, categoria: string): (n: nat)
    ensures n <= |ventas|
    ensures n == 0 <==> forall j :: 0 <= j < |ventas| ==> !TieneCategoria(ventas[j], categoria)
  {
    Seqs.Count(ventas, (v: Venta) => TieneCategoria(v, categoria))
  }

  /** The sales made by a seller of that name. */
  function VentasVendedor(ventas: seq<Venta>, nombre: string): (n: nat)
    ensures n <= |ventas|
    ensures n == 0 <==> forall j :: 0 <= j < |ventas| ==> ventas[j].vendedor.nombre != nombre
  {
    Seqs.Count(ventas, (v: Venta) => v.vendedor.nombre == nombre)
  }

  /** A new sale adds one to the category report exactly when it has a line in it, however many. */
  lemma VentasCategoriaAgrega(ventas: seq<Venta>, v: Venta, categoria: string)
    ensures VentasCategoria(ventas + [v], categoria) == VentasCategoria(ventas, categoria) + if TieneCategoria(v, categoria) then 1 else 0
  {
    assert (ventas + [v])[..|ventas|] == ventas;
  }

  /** A new sale adds one to the seller report exactly when that seller made it. */
  lemma VentasVendedorAgrega(ventas: seq<Venta>, v: Venta, nombre: string)
    ensures VentasVendedor(ventas + [v], nombre) == VentasVendedor(ventas, nombre) + if v.vendedor.nombre == nombre then 1 else 0
  {
    assert (ventas + [v])[..|ventas|] == ventas;
  }

  /** `reporte_ventas_vendedor`: `filter().count() as u32`, so the count keeps its low 32 bits. */
  function ReporteVentasVendedor(ventas: seq<Venta>, nombre: string): (r: Reporte)
    ensures r.nombre == nombre
    ensures VentasVendedor(ventas, nombre) < 0x1_0000_0000 ==> r.cantidadVentas as int == VentasVendedor(ventas, nombre)
    ensures r.cantidadVentas == 0 <== VentasVendedor(ventas, nombre) == 0
  {
    Reporte(nombre, ComoU32(VentasVendedor(ventas, nombre)))
  }

  /** The two sales of the fixture, both to a newsletter subscriber. */
  function CategoriasPrueba(): map<string, u32> {
    map["Electrónica" := 20, "Ropa" := 10]
  }

  function VentasPrueba(): seq<Venta> {
    var celular := Producto("Celular", "Electrónica", 1000.0);
    var camiseta := Producto("Camiseta", "Ropa", 50.0);
    var vendedor := Persona("Juan", "Pérez", "Calle 123", 12345678, 1, 5, 2000.0, None);
    var cliente := Persona("Ana", "Gómez", "Av 456", 87654321, 0, 0, 0.0, Some("ana@example.com"));
    [Venta(vendedor, cliente, Efectivo, Fecha(1, 5, 2025), [Registro(celular, 2)]),
     Venta(vendedor, cliente, TarjetaCredito, Fecha(2, 5, 2025), [Registro(celular, 1), Registro(camiseta, 3)])]
  }

  /** Two phones at 20% off with the newsletter make 1440; a phone and three shirts make 841.5. */
  lemma EjemploPrecios()
    ensures PrecioFinal(VentasPrueba()[0], CategoriasPrueba()) == 1440.0
    ensures PrecioFinal(VentasPrueba()[1], CategoriasPrueba()) == 841.5
  {
    var c := CategoriasPrueba();
    assert "Electrónica"[0] != "Ropa"[0];
    assert Descuento(c, "Electrónica") == 20;
    assert Descuento(c, "Ropa") == 10;
    var r0 := VentasPrueba()[0].registros;
    assert r0[..0] == [];
    assert Subtotal(r0, c) == 1600.0;
    var r1 := VentasPrueba()[1].registros;
    assert r1[..1][..0] == [];
    assert r1[..1] == [r1[0]];
    assert Subtotal(r1[..1], c) == 800.0;
    assert Subtotal(r1, c) == 935.0;
  }

  /** Electronics appear in both sales and clothing in one; nobody bought home goods. */
  lemma EjemploReporteCategoria()
    ensures VentasCategoria(VentasPrueba(), "Electrónica") == 2
    ensures VentasCategoria(VentasPrueba(), "Ropa") == 1
    ensures VentasCategoria(VentasPrueba(), "Hogar") == 0
  {
    var vs := VentasPrueba();
    assert vs == [vs[0], vs[1]];
    CategoriasDeLaPrueba();
    VentasCategoriaDos(vs[0], vs[1], "Electrónica");
    VentasCategoriaDos(vs[0], vs[1], "Ropa");
    VentasCategoriaDos(vs[0], vs[1], "Hogar");
  }

  lemma VentasCategoriaDos(v0: Venta, v1: Venta, categoria: string)
    ensures VentasCategoria([v0, v1], categoria) ==
      (if TieneCategoria(v0, categoria) then 1 else 0) + (if TieneCategoria(v1, categoria) then 1 else 0)
  {
    assert [v0, v1] == [v0] + [v1];
    assert [] + [v0] == [v0];
    VentasCategoriaAgrega([], v0, categoria);
    VentasCategoriaAgrega([v0], v1, categoria);
  }

  /** Which categories each sale of the fixture touches. */
  lemma CategoriasDeLaPrueba()
    ensures TieneCategoria(VentasPrueba()[0], "Electrónica") && !TieneCategoria(VentasPrueba()[0], "Ropa")
    ensures TieneCategoria(VentasPrueba()[1], "Electrónica") && TieneCategoria(VentasPrueba()[1], "Ropa")
    ensures !TieneCategoria(VentasPrueba()[0], "Hogar") && !TieneCategoria(VentasPrueba()[1], "Hogar")
  {
    var v0 := VentasPrueba()[0];
    var v1 := VentasPrueba()[1];
    assert "Electrónica"[0] != "Ropa"[0];
    assert "Electrónica"[0] != "Hogar"[0] && "Ropa"[0] != "Hogar"[0];
    assert v0.registros[0].producto.nombreCategoria == "Electrónica";
    assert v1.registros[0].producto.nombreCategoria == "Electrónica";
    assert v1.registros[1].producto.nombreCategoria == "Ropa";
  }

  /** Juan made both sales; María none. */
  lemma EjemploReporteVendedor()
    ensures VentasVendedor(VentasPrueba(), "Juan") == 2
    ensures VentasVendedor(VentasPrueba(), "María") == 0
  {
    var vs := VentasPrueba();
    var v0 := vs[0];
    var v1 := vs[1];
    assert "Juan"[0] != "María"[0];
    assert vs == [v0] + [v1];
    assert [] + [v0] == [v0];
    VentasVendedorAgrega([], v0, "Juan");
    VentasVendedorAgrega([v0], v1, "Juan");
  }

  class Sistema {
    var productos: seq<Producto>
    var categorias: map<string, u32>
    var ventas: seq<Venta>

    /** `Sistema::new`: nothing registered. */
    constructor ()
      ensures productos == [] && categorias == map[] && ventas == []
    {
      productos := [];
      categorias := map[];
      ventas := [];
    }

    /** `crear_venta`: the sale is appended and an equal copy returned. */
    method CrearVenta(fecha: Fecha, cliente: Persona, vendedor: Persona, medioPago: MedioPago, registros: seq<Registro>)
      returns (venta: Venta)
      modifies this
      ensures venta == Venta(vendedor, cliente, medioPago, fecha, registros)
      ensures ventas == old(ventas) + [venta]
      ensures productos == old(productos) && categorias == old(categorias)
    {
      venta := Venta(vendedor, cliente, medioPago, fecha, registros);
      ventas := ventas + [venta];
    }

    /** `buscar_venta`: the stored sale equal to `venta`, if any. */
    function BuscarVenta(venta: Venta): (r: Option<Venta>)
      reads this
      ensures r.None? <==> venta !in ventas
      ensures r.Some? ==> r.value == venta
    {
      match Seqs.FindIndex(ventas, (v: Venta) => v == venta)
      case None => None
      case Some(i) => Some(ventas[i])
    }

    /**
     * `calcular_precio_final`: None for a sale that is not stored; otherwise
     * the lines are added up in a loop and the newsletter discount applied.
     */
    method CalcularPrecioFinal(ventaParam: Venta) returns (r: Option<real>)
      ensures r.None? <==> ventaParam !in ventas
      ensures r.Some? ==> r.value == PrecioFinal(ventaParam, categorias)
    {
      var encontrada := BuscarVenta(ventaParam);
      if encontrada.None? {
        return None;
      }
      var venta := encontrada.value;
      var subtotal := 0.0;
      var i := 0;
      while i < |venta.registros|
        invariant 0 <= i <= |venta.registros|
        invariant subtotal == Subtotal(venta.registros[..i], categorias)
      {
        assert venta.registros[..i + 1][..i] == venta.registros[..i];
        subtotal := subtotal + PrecioRegistro(venta.registros[i], categorias);
        i := i + 1;
      }
      assert venta.registros[..i] == venta.registros;
      var descuentoNewsletter := if venta.cliente.emailNewsletter.Some? then DescuentoNewsletter as real else 0.0;
      return Some(subtotal * (1.0 - descuentoNewsletter / 100.0));
    }

    /**
     * `reporte_ventas_categoria`: a `u32` counter over the sales with a line
     * in the category; the increment panics past `u32::MAX`.
     */
    method ReporteVentasCategoria(categoria: string) returns (r: Reporte)
      requires VentasCategoria(ventas, categoria) < 0x1_0000_0000
      ensures r.nombre == categoria && r.cantidadVentas as int == VentasCategoria(ventas, categoria)
    {
      var cantidadVentas: u32 := 0;
      var i := 0;
      while i < |ventas|
        invariant 0 <= i <= |ventas|
        invariant cantidadVentas as int == VentasCategoria(ventas[..i], categoria)
      {
        VentasCategoriaAgrega(ventas[..i], ventas[i], categoria);
        assert ventas[..i + 1] == ventas[..i] + [ventas[i]];
        if TieneCategoria(ventas[i], categoria) {
          VentasCategoriaPrefijo(ventas, i + 1, categoria);
          cantidadVentas := cantidadVentas + 1;
        }
        i := i + 1;
      }
      assert ventas[..i] == ventas;
      r := Reporte(categoria, cantidadVentas);
    }
  }

  /** A prefix never has more matching sales than the whole list. */
  lemma {:induction false} VentasCategoriaPrefijo(ventas: seq<Venta>, i: nat, categoria: string)
    requires i <= |ventas|
    ensures VentasCategoria(ventas[..i], categoria) <= VentasCategoria(ventas, categoria)
    decreases |ventas| - i
  {
    if i < |ventas| {
      var init := ventas[..|ventas| - 1];
      VentasCategoriaPrefijo(init, i, categoria);
      assert init[..i] == ventas[..i];
      VentasCategoriaAgrega(init, ventas[|ventas| - 1], categoria);
      assert init + [ventas[|ventas| - 1]] == ventas;
    } else {
      assert ventas[..i] == ventas;
    }
  }
}
