/**
 * The records the storefront passes between its pages, its cart and its API:
 * a catalog product (`ProductoVender`) and the signed-in account.
 */
module Records {
  import opened Wrappers

  /**
   * A stored catalog product. Prices are whole Colombian pesos; the two
   * percentages are kept as reals, as the spreadsheet gives them.
   * Creation and update timestamps are not part of this model.
   */
  datatype ProductoVender = ProductoVender(
    id: int,
    itemNumber: int,
    codigo: string,
    municipio: string,
    categoria: string,
    producto: string,
    presentacion: string,
    costoPcc: int,
    porcentajeLogistica: real,
    porcentajeTransporte: real,
    precioSugerido: int,
    precioVenta: int)

  /** The signed-in account, as far as the cart and checkout look at it. */
  datatype Account = Account(
    id: string,
    name: Option<string>,
    address: Option<string>,
    phone: Option<string>,
    admin: bool)
}
