/** The extracted receipt, as the rest of the program passes it around. */
module ReceiptModel {
  import opened Prelude

  /** The fixed vocabulary; anything else a model returns is read as `Unknown`. */
  datatype SpendingCategory =
    | Unknown | Other | Milk | Cheese | Yogurt | Eggs | ButterSpreads | BreadBakery | Cereals
    | PastaRiceGrains | Vegetables | Fruit | Meat | Fish | ReadyMeals | SnacksSweets | CoffeeTea
    | Water | SoftDrinks | Alcohol | SaucesSpices | Cleaning | Household | PersonalCare | Pet
    | Health | Clothing | Electronics | Hardware | Restaurant | Fuel | Services | Deposit

  datatype Date = Date(year: int, month: int, day: int)

  datatype LineItem = LineItem(
    description: string,
    spendingCategory: SpendingCategory,
    quantity: real,
    unitPrice: real,
    totalPrice: real,
    tags: seq<string>)

  datatype TaxLine = TaxLine(name: string, rate: Option<real>, amount: real)

  datatype Receipt = Receipt(
    confidence: int,
    merchantName: string,
    merchantAddress: Option<string>,
    receiptNumber: Option<string>,
    date: Date,
    time: Option<string>,
    currency: string,
    category: string,
    lineItems: seq<LineItem>,
    taxes: seq<TaxLine>,
    subtotal: real,
    discountTotal: real,
    taxTotal: real,
    tip: Option<real>,
    total: real,
    paymentMethod: string)
}
