/** The product service: creation with availability derived from stock, the
    signed stock update, field edits, the flag setter and deletion. */
module ProductoServicio {
  import opened Comun
  import opened Productos

  class ProductoService {
    var productos: map<int, Producto>
    var siguienteId: nat

    /** Ids are key-consistent and below the next id, and no stock is negative. */
    ghost predicate Valid()
      reads this, productos.Values
    {
      1 <= siguienteId &&
      (forall k | k in productos :: 1 <= k < siguienteId && productos[k].id == k) &&
      (forall k | k in productos :: productos[k].stock >= 0)
    }

    /** The product object stored under id, as a frame. */
    function Producto(id: int): set<object>
      reads this
    {
      if id in productos then {productos[id]} else {}
    }

    constructor()
      ensures Valid() && productos == map[] && siguienteId == 1
    {
      productos := map[];
      siguienteId := 1;
    }

    /** crear: the request's stock is non-negative (a request-body constraint);
        the product is available iff that stock is positive. */
    method Crear(nombre: string, descripcion: Option<string>, precio: real, stock: int,
                 marca: Option<string>, categoria: Option<string>) returns (p: Producto)
      requires Valid() && stock >= 0
      modifies this
      ensures Valid()
      ensures fresh(p) && p.id == old(siguienteId)
      ensures p.nombre == nombre && p.descripcion == descripcion && p.precio == precio
      ensures p.marca == marca && p.categoria == categoria && p.imagenProducto == None
      ensures p.stock == stock && p.disponible == (stock > 0)
      ensures productos == old(productos)[old(siguienteId) := p] && siguienteId == old(siguienteId) + 1
    {
      p := new Producto(siguienteId, nombre, descripcion, precio, stock, marca, categoria);
      productos := productos[siguienteId := p];
      siguienteId := siguienteId + 1;
    }

    /** actualizar: sets name, description, price, brand and category, and the
        image only when one is given; stock and flag are untouched. */
    method Actualizar(id: int, nombre: string, descripcion: Option<string>, precio: real,
                      marca: Option<string>, categoria: Option<string>, imagenProducto: Option<string>)
      returns (err: Option<Error>)
      requires Valid()
      modifies Producto(id)
      ensures Valid()
      ensures id !in productos ==> err == Some(NotFound("Producto", id))
      ensures id in productos ==>
                var p := productos[id];
                err == None && p.nombre == nombre && p.descripcion == descripcion && p.precio == precio &&
                p.marca == marca && p.categoria == categoria &&
                p.imagenProducto == (if imagenProducto.Some? then imagenProducto else old(p.imagenProducto)) &&
                p.stock == old(p.stock) && p.disponible == old(p.disponible)
    {
      if id !in productos {
        return Some(NotFound("Producto", id));
      }
      var p := productos[id];
      p.nombre := nombre;
      p.descripcion := descripcion;
      p.precio := precio;
      p.marca := marca;
      p.categoria := categoria;
      if imagenProducto.Some? {
        p.imagenProducto := imagenProducto;
      }
      err := None;
    }

    /** actualizarStock: a non-negative cantidad increases the stock by
        cantidad; a negative one decreases it by its absolute value, failing
        with the product unchanged when the stock is insufficient. */
    method ActualizarStock(id: int, cantidad: int) returns (err: Option<Error>)
      requires Valid()
      modifies Producto(id)
      ensures Valid()
      ensures id !in productos ==> err == Some(NotFound("Producto", id))
      ensures id in productos && cantidad >= 0 ==>
                err == None && productos[id].Contador() == TrasAumentar(old(productos[id].Contador()), cantidad)
      ensures id in productos && cantidad < 0 ==>
                var r := TrasReducir(old(productos[id].Contador()), -cantidad);
                (r.Ok? ==> err == None && productos[id].Contador() == r.value) &&
                (r.Err? ==> err == Some(r.error) && productos[id].Contador() == old(productos[id].Contador()))
      ensures id in productos ==>
                var p := productos[id];
                p.nombre == old(p.nombre) && p.descripcion == old(p.descripcion) && p.precio == old(p.precio) &&
                p.marca == old(p.marca) && p.categoria == old(p.categoria) && p.imagenProducto == old(p.imagenProducto)
    {
      if id !in productos {
        return Some(NotFound("Producto", id));
      }
      var p := productos[id];
      if cantidad >= 0 {
        p.AumentarStock(cantidad);
        err := None;
      } else {
        err := p.ReducirStock(-cantidad);
      }
    }

    /** cambiarDisponibilidad: sets the flag; the stock is unchanged. */
    method CambiarDisponibilidad(id: int, disponible: bool) returns (err: Option<Error>)
      requires Valid()
      modifies Producto(id)
      ensures Valid()
      ensures id !in productos ==> err == Some(NotFound("Producto", id))
      ensures id in productos ==>
                var p := productos[id];
                err == None && p.disponible == disponible && p.stock == old(p.stock) &&
                p.nombre == old(p.nombre) && p.descripcion == old(p.descripcion) && p.precio == old(p.precio) &&
                p.marca == old(p.marca) && p.categoria == old(p.categoria) && p.imagenProducto == old(p.imagenProducto)
    {
      if id !in productos {
        return Some(NotFound("Producto", id));
      }
      productos[id].disponible := disponible;
      err := None;
    }

    /** eliminar: removes an existing product. */
    method Eliminar(id: int) returns (err: Option<Error>)
      requires Valid()
      modifies this
      ensures Valid() && siguienteId == old(siguienteId)
      ensures id !in old(productos) ==> err == Some(NotFound("Producto", id)) && productos == old(productos)
      ensures id in old(productos) ==> err == None && productos == old(productos) - {id}
    {
      if id !in productos {
        return Some(NotFound("Producto", id));
      }
      productos := productos - {id};
      err := None;
    }
  }
}
