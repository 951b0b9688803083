/**
 * The order aggregate: an order owns one delivery record, one payment record
 * and an ordered list of items. Go's `time.Time` creation stamp is kept as an
 * opaque integer; nothing in the core computes with it.
 */
module Domain {

  datatype Delivery = Delivery(
    name: string, phone: string, zip: string, city: string,
    address: string, region: string, email: string)

  datatype Payment = Payment(
    transaction: string, requestID: string, currency: string, provider: string,
    amount: int, paymentDt: int, bank: string,
    deliveryCost: int, goodsTotal: int, customFee: int)

  datatype Item = Item(
    chrtID: int, trackNumber: string, price: int, rid: string, name: string,
    sale: int, size: string, totalPrice: int, nmID: int, brand: string, status: int)

  datatype Order = Order(
    orderUID: string, trackNumber: string, entry: string,
    delivery: Delivery, payment: Payment, items: seq<Item>,
    locale: string, internalSignature: string, customerID: string,
    deliveryService: string, shardkey: string, smID: int,
    dateCreated: int, oofShard: string)

  /**
   * What `order.Validate()` answers. Its rules are not part of this model:
   * the service is given the validator as an uninterpreted total function.
   */
  datatype Verdict = Accepted | Rejected(violations: seq<string>)
}
