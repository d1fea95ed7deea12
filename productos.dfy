/** The product entity and its stock counter, with the availability flag the
    counter drives. */
module Productos {
  import opened Comun

  /** The stock counter and the availability flag of a product. */
  datatype Existencias = Existencias(stock: int, disponible: bool)

  /** estaDisponible: enabled and in stock, that is, enabled and able to give
      at least one unit. */
  function EstaDisponible(e: Existencias): (b: bool)
    ensures b <==> e.disponible && TrasReducir(e, 1).Ok?
  {
    e.disponible && e.stock > 0
  }

  /** reducirStock on the counter: with enough stock it takes cantidad away and
      switches the flag off when stock reaches zero; otherwise it fails with
      the counter untouched. */
  function TrasReducir(e: Existencias, cantidad: int): (r: Result<Existencias>)
    ensures e.stock >= cantidad <==> r.Ok?
    ensures r.Ok? ==> r.value.stock == e.stock - cantidad && r.value.stock >= 0
    ensures r.Ok? ==> r.value.disponible == (r.value.stock != 0 && e.disponible)
    ensures r.Err? ==> r.error == IllegalState(StockInsuficiente)
  {
    if e.stock >= cantidad then
      var s := e.stock - cantidad;
      Ok(Existencias(s, if s == 0 then false else e.disponible))
    else
      Err(IllegalState(StockInsuficiente))
  }

  /** aumentarStock on the counter: adds cantidad and switches the flag on when
      the result is positive. */
  function TrasAumentar(e: Existencias, cantidad: int): (r: Existencias)
    ensures r.stock == e.stock + cantidad
    ensures r.stock > 0 ==> r.disponible
    ensures r.stock <= 0 ==> r.disponible == e.disponible
  {
    var s := e.stock + cantidad;
    Existencias(s, if s > 0 then true else e.disponible)
  }

  /** Emptying the stock makes the product unavailable. */
  lemma AgotarDesactiva(e: Existencias)
    requires e.stock >= 0
    ensures TrasReducir(e, e.stock) == Ok(Existencias(0, false))
    ensures !EstaDisponible(TrasReducir(e, e.stock).value)
  {
  }

  /** From a non-negative stock, neither a successful decrease nor a
      non-negative increase makes the stock negative. */
  lemma StockNoNegativo(e: Existencias, cantidad: int)
    requires e.stock >= 0 && cantidad >= 0
    ensures TrasReducir(e, cantidad).Ok? ==> TrasReducir(e, cantidad).value.stock >= 0
    ensures TrasAumentar(e, cantidad).stock >= 0
  {
  }

  /** A successful decrease followed by an increase of the same amount
      restores the stock; the product is then available whenever the stock is
      positive. */
  lemma ReducirYAumentar(e: Existencias, cantidad: int)
    requires TrasReducir(e, cantidad).Ok?
    ensures TrasAumentar(TrasReducir(e, cantidad).value, cantidad).stock == e.stock
    ensures e.stock > 0 ==> EstaDisponible(TrasAumentar(TrasReducir(e, cantidad).value, cantidad))
  {
  }

  /** A product. Stock and flag change only through ReducirStock, AumentarStock
      and the flag setter of the service. */
  class Producto {
    const id: int
    var nombre: string
    var descripcion: Option<string>
    var precio: real
    var stock: int
    var imagenProducto: Option<string>
    var disponible: bool
    var marca: Option<string>
    var categoria: Option<string>

    /** The stock counter and flag of this product. */
    function Contador(): Existencias
      reads this
    {
      Existencias(stock, disponible)
    }

    /** The builder call of the product service: available iff there is stock,
        no image yet. */
    constructor(id: int, nombre: string, descripcion: Option<string>, precio: real, stock: int,
                marca: Option<string>, categoria: Option<string>)
      ensures this.id == id && this.nombre == nombre && this.descripcion == descripcion
      ensures this.precio == precio && this.stock == stock && this.disponible == (stock > 0)
      ensures this.marca == marca && this.categoria == categoria && imagenProducto == None
    {
      this.id := id;
      this.nombre := nombre;
      this.descripcion := descripcion;
      this.precio := precio;
      this.stock := stock;
      this.marca := marca;
      this.categoria := categoria;
      imagenProducto := None;
      disponible := stock > 0;
    }

    /** reducirStock. */
    method ReducirStock(cantidad: int) returns (err: Option<Error>)
      modifies this`stock, this`disponible
      ensures TrasReducir(old(Contador()), cantidad).Ok? ==>
                err.None? && Contador() == TrasReducir(old(Contador()), cantidad).value
      ensures TrasReducir(old(Contador()), cantidad).Err? ==>
                err == Some(TrasReducir(old(Contador()), cantidad).error) && Contador() == old(Contador())
    {
      if stock >= cantidad {
        stock := stock - cantidad;
        if stock == 0 {
          disponible := false;
        }
        err := None;
      } else {
        err := Some(IllegalState(StockInsuficiente));
      }
    }

    /** aumentarStock. */
    method AumentarStock(cantidad: int)
      modifies this`stock, this`disponible
      ensures Contador() == TrasAumentar(old(Contador()), cantidad)
    {
      stock := stock + cantidad;
      if stock > 0 {
        disponible := true;
      }
    }
  }
}
