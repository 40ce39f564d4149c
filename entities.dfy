/** The records the REST API returns, reduced to the fields the front end's rules read.
    A field the API may leave out is an Option, or '' where the code falls back to ''. */
module Entities {
  import opened Wrappers

  datatype Product = Product(
    id: int,
    sku: string,
    nombre: string,
    category_id: int,
    warehouse_id: Option<int>,
    stock: int,
    stock_minimo: int,
    stock_maximo: int)

  datatype Warehouse = Warehouse(id: int, nombre: string, ubicacion: string)

  datatype Category = Category(id: int, nombre: string)

  datatype User = User(id: int, nombre: string, correo: string, rol: string)

  const Administrador := "administrador"
  const Colaborador := "colaborador"
}
