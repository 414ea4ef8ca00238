/**
 * The four admin operations built on the gateway. Each sends one request,
 * passes the gateway's outcome through and projects the payload.
 *
 * The admin client is a parameter `admin` that maps the request sent to the
 * transport outcome; the GraphQL documents themselves are not modelled, only
 * which operation is sent and with which variables.
 */
module Operations {
  import opened Wrappers
  import opened Errors
  import opened Gateway

  /** Reasons an inventory adjustment may carry. */
  datatype Reason = Correction | Damaged | Received | Returned | Other

  /** The reason used when the caller gives none. */
  const DefaultReason: Reason := Correction

  datatype ChangeInput = ChangeInput(delta: int, inventoryItemId: string, locationId: string)

  /** The operation sent and its variables. */
  datatype Request =
    | ProductSearch(query: string)
    | AdjustQuantities(reason: Reason, changes: seq<ChangeInput>)
    | LocationList
    | InventoryLevelQuery(inventoryItemId: string, locationId: string)

  datatype Edge<N> = Edge(node: N)
  datatype Connection<N> = Connection(edges: seq<Edge<N>>)

  datatype Variant = Variant(id: string, barcode: Option<string>, sku: Option<string>, price: string, inventoryItemId: string)
  datatype Product = Product(id: string, title: string, handle: string,
                             variants: Connection<Variant>, imageUrls: Connection<string>)
  datatype ProductsData = ProductsData(products: Connection<Product>)

  datatype AdjustmentChange = AdjustmentChange(name: string, delta: int)
  datatype AdjustmentGroup = AdjustmentGroup(reason: string, changes: seq<AdjustmentChange>)
  datatype AdjustPayload = AdjustPayload(userErrors: seq<UserError>, inventoryAdjustmentGroup: Option<AdjustmentGroup>)
  datatype AdjustData = AdjustData(inventoryAdjustQuantities: AdjustPayload)
  /** `{ success: true, inventoryAdjustmentGroup }`. */
  datatype AdjustResult = AdjustResult(success: bool, inventoryAdjustmentGroup: Option<AdjustmentGroup>)

  datatype Address = Address(address1: Option<string>, city: Option<string>, province: Option<string>,
                             country: Option<string>, zip: Option<string>)
  datatype Location = Location(id: string, name: string, address: Address)
  datatype LocationsData = LocationsData(locations: Connection<Location>)

  datatype Quantity = Quantity(name: string, quantity: int)
  datatype InventoryLevel = InventoryLevel(quantities: seq<Quantity>)
  datatype InventoryItem = InventoryItem(inventoryLevel: Option<InventoryLevel>)
  datatype InventoryData = InventoryData(inventoryItem: Option<InventoryItem>)

  const UserErrorCode: string := "USER_ERROR"
  const AvailableName: string := "available"

  /** The search string for a barcode: the same text matched as barcode or as SKU. */
  function SearchQuery(barcode: string): (q: string)
    ensures |q| == 2 * |barcode| + 16
    ensures q[..8] == "barcode:" && q[8..8 + |barcode|] == barcode
    ensures q[8 + |barcode|..16 + |barcode|] == " OR sku:" && q[16 + |barcode|..] == barcode
  {
    "barcode:" + barcode + " OR sku:" + barcode
  }

  /** `edges[0]?.node`. */
  function FirstNode<N>(edges: seq<Edge<N>>): (r: Option<N>)
    ensures r.None? <==> edges == []
    ensures r.Some? ==> r.value == edges[0].node
  {
    if edges == [] then None else Some(edges[0].node)
  }

  /** `edges.map((edge) => edge.node)`. */
  function Nodes<N>(edges: seq<Edge<N>>): (ns: seq<N>)
    ensures |ns| == |edges|
    ensures forall i :: 0 <= i < |edges| ==> ns[i] == edges[i].node
  {
    if edges == [] then [] else [edges[0].node] + Nodes(edges[1..])
  }

  /** `quantities.find((q) => q.name === name)`, as the index of the entry found. */
  function FirstNamed(qs: seq<Quantity>, name: string): (r: Option<nat>)
    ensures r.Some? ==> r.value < |qs| && qs[r.value].name == name
                        && forall j :: 0 <= j < r.value ==> qs[j].name != name
    ensures r.None? ==> forall j :: 0 <= j < |qs| ==> qs[j].name != name
  {
    if qs == [] then None
    else if qs[0].name == name then Some(0)
    else match FirstNamed(qs[1..], name)
      case None => None
      case Some(i) => Some(i + 1)
  }

  /** `data.inventoryItem?.inventoryLevel?.quantities.find(...)?.quantity ?? null`. */
  function AvailableQuantity(d: InventoryData): (r: Option<int>)
    ensures r.Some? <==> d.inventoryItem.Some? && d.inventoryItem.value.inventoryLevel.Some?
                         && exists j :: 0 <= j < |d.inventoryItem.value.inventoryLevel.value.quantities|
                                      && d.inventoryItem.value.inventoryLevel.value.quantities[j].name == AvailableName
    ensures r.Some? ==> var qs := d.inventoryItem.value.inventoryLevel.value.quantities;
      exists i :: 0 <= i < |qs| && qs[i].name == AvailableName && qs[i].quantity == r.value
                  && forall j :: 0 <= j < i ==> qs[j].name != AvailableName
  {
    match d.inventoryItem
    case None => None
    case Some(item) =>
      match item.inventoryLevel
      case None => None
      case Some(level) =>
        match FirstNamed(level.quantities, AvailableName)
        case None => None
        case Some(i) => Some(level.quantities[i].quantity)
  }

  /** `findProductByBarcode(graphql, barcode)`. */
  function FindProductByBarcode(admin: Request -> Transport<ProductsData>, barcode: string): (r: Result<Option<Product>, Thrown>)
    ensures var q := GraphqlQuery(admin(ProductSearch(SearchQuery(barcode))));
      && (q.Failure? ==> r == Failure(App(q.error)))
      && (q == Success(None) ==> r == Failure(PlainError(ReadOfUndefined("products"))))
      && (q.Success? && q.value.Some? ==>
            r.Success?
            && (r.value.None? <==> q.value.value.products.edges == [])
            && (r.value.Some? ==> r.value.value == q.value.value.products.edges[0].node))
  {
    match GraphqlQuery(admin(ProductSearch(SearchQuery(barcode))))
    case Failure(e) => Failure(App(e))
    case Success(None) => Failure(PlainError(ReadOfUndefined("products")))
    case Success(Some(d)) => Success(FirstNode(d.products.edges))
  }

  /** `adjustInventory(graphql, inventoryItemId, locationId, quantityDelta, reason)`. */
  function AdjustInventory(admin: Request -> Transport<AdjustData>, inventoryItemId: string, locationId: string,
                           quantityDelta: int, reason: Reason): (r: Result<AdjustResult, Thrown>)
    ensures var q := GraphqlQuery(admin(AdjustQuantities(reason, [ChangeInput(quantityDelta, inventoryItemId, locationId)])));
      && (q.Failure? ==> r == Failure(App(q.error)))
      && (q == Success(None) ==> r == Failure(PlainError(ReadOfUndefined("inventoryAdjustQuantities"))))
      && (q.Success? && q.value.Some? ==>
            var res := q.value.value.inventoryAdjustQuantities;
            && (res.userErrors != [] ==>
                  r == Failure(App(ShopifyApiError(res.userErrors[0].message, Some(UserErrorCode), Some(res.userErrors)))))
            && (res.userErrors == [] ==>
                  r.Success? && r.value.success && r.value.inventoryAdjustmentGroup == res.inventoryAdjustmentGroup))
  {
    match GraphqlQuery(admin(AdjustQuantities(reason, [ChangeInput(quantityDelta, inventoryItemId, locationId)])))
    case Failure(e) => Failure(App(e))
    case Success(None) => Failure(PlainError(ReadOfUndefined("inventoryAdjustQuantities")))
    case Success(Some(d)) =>
      var res := d.inventoryAdjustQuantities;
      if |res.userErrors| > 0 then
        Failure(App(NewShopifyApiError(res.userErrors[0].message, Some(UserErrorCode), Some(res.userErrors))))
      else
        Success(AdjustResult(true, res.inventoryAdjustmentGroup))
  }

  /** `getLocations(graphql)`. */
  function GetLocations(admin: Request -> Transport<LocationsData>): (r: Result<seq<Location>, Thrown>)
    ensures var q := GraphqlQuery(admin(LocationList));
      && (q.Failure? ==> r == Failure(App(q.error)))
      && (q == Success(None) ==> r == Failure(PlainError(ReadOfUndefined("locations"))))
      && (q.Success? && q.value.Some? ==>
            var edges := q.value.value.locations.edges;
            r.Success? && |r.value| == |edges| && forall i :: 0 <= i < |edges| ==> r.value[i] == edges[i].node)
  {
    match GraphqlQuery(admin(LocationList))
    case Failure(e) => Failure(App(e))
    case Success(None) => Failure(PlainError(ReadOfUndefined("locations")))
    case Success(Some(d)) => Success(Nodes(d.locations.edges))
  }

  /** `getInventoryLevel(graphql, inventoryItemId, locationId)`. */
  function GetInventoryLevel(admin: Request -> Transport<InventoryData>, inventoryItemId: string, locationId: string)
    : (r: Result<Option<int>, Thrown>)
    ensures var q := GraphqlQuery(admin(InventoryLevelQuery(inventoryItemId, locationId)));
      && (q.Failure? ==> r == Failure(App(q.error)))
      && (q == Success(None) ==> r == Failure(PlainError(ReadOfUndefined("inventoryItem"))))
      && (q.Success? && q.value.Some? ==> r == Success(AvailableQuantity(q.value.value)))
  {
    match GraphqlQuery(admin(InventoryLevelQuery(inventoryItemId, locationId)))
    case Failure(e) => Failure(App(e))
    case Success(None) => Failure(PlainError(ReadOfUndefined("inventoryItem")))
    case Success(Some(d)) => Success(AvailableQuantity(d))
  }
}
