/** Record shapes of the matching engine: the supply listing a farmer submits,
    the demand listing a buyer (slaughterhouse) submits, and the tagged union
    the scanner handles when it does not know statically which side it holds. */
module Models {

  datatype Option<T> = None | Some(value: T)

  /** A clock reading (seconds since the epoch): a `real` that the model only
      stores and passes through, never orders or does arithmetic on. */
  type Timestamp = real

  /** A stored supply listing (farmers.json). `ownerId` is None when the
      record carries no `owner_id` key. */
  datatype Farmer = Farmer(
    race: string,
    age: int,
    sex: string,
    quantity: int,
    location: string,
    contact: string,
    id: string,
    timestamp: Timestamp,
    ownerId: Option<string>)

  /** A stored demand listing (buyers.json). `locations` is the buyer's
      `location` list of acceptable places. */
  datatype Buyer = Buyer(
    locations: seq<string>,
    race: string,
    ageMin: int,
    ageMax: int,
    sex: string,
    quantity: int,
    contact: string,
    id: string,
    timestamp: Timestamp,
    ownerId: Option<string>)

  /** A record loaded from either collection. */
  datatype Record = FarmerRecord(farmer: Farmer) | BuyerRecord(buyer: Buyer)
  {
    function Contact(): string
    {
      match this
      case FarmerRecord(f) => f.contact
      case BuyerRecord(b) => b.contact
    }

    function OwnerId(): Option<string>
    {
      match this
      case FarmerRecord(f) => f.ownerId
      case BuyerRecord(b) => b.ownerId
    }
  }

  /** Bounds a buyer's age range takes when the submission omits them. */
  const DefaultAgeMin: int := 0
  const DefaultAgeMax: int := 100

  function AgeOrDefault(given: Option<int>, default: int): int
  {
    match given
    case Some(a) => a
    case None => default
  }

  /** A demand listing as built from a submission whose age bounds may be
      omitted, with the id and timestamp the handler assigns. */
  function NewBuyer(locations: seq<string>, race: string, ageMin: Option<int>, ageMax: Option<int>,
                    sex: string, quantity: int, contact: string, id: string, timestamp: Timestamp): Buyer
  {
    Buyer(locations, race, AgeOrDefault(ageMin, DefaultAgeMin), AgeOrDefault(ageMax, DefaultAgeMax),
          sex, quantity, contact, id, timestamp, None)
  }
}
