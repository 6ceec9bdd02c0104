/** The record shapes of the application: livestock (individual animals
    and batches), pens, activity logs and important dates.
    Timestamps stand for the ISO date strings the application stores. */
module Types {
  import opened Collections

  /** Milliseconds since the epoch; the application stores ISO strings. */
  type Timestamp = int

  datatype ActivityType = Feeding | Medication | Vaccination | Observation | Other

  /** The activity types, in the order the forms list them. */
  const ActivityTypes: seq<ActivityType> := [Feeding, Medication, Vaccination, Observation, Other]

  datatype ActivityLog = ActivityLog(id: string, date: Timestamp, kind: ActivityType, description: string)

  datatype ImportantDate = ImportantDate(id: string, date: Timestamp, eventName: string, notes: Option<string>)

  datatype LivestockType = MegaStock | MidStock | MiniStock | MicroStock

  /** The livestock categories, in the order the type selector lists them. */
  const LivestockTypes: seq<LivestockType> := [MegaStock, MidStock, MiniStock, MicroStock]

  /** The label the application stores and displays for a category. */
  function TypeName(t: LivestockType): string {
    match t
    case MegaStock => "Mega Stock"
    case MidStock => "Mid Stock"
    case MiniStock => "Mini Stock"
    case MicroStock => "Micro Stock"
  }

  /** Mega and Mid Stock are kept as individual animals; Mini and Micro Stock as batches. */
  predicate IsIndividualType(t: LivestockType) {
    t == MegaStock || t == MidStock
  }

  datatype Gender = Male | Female | Unknown

  /** A livestock record as the store holds it. Fields that a variant of
      the record type leaves optional or forbids are `Option`s; the type
      tag is an `Option` too, because stored records may lack it. */
  datatype Livestock = Livestock(
    id: string,
    livestockType: Option<LivestockType>,
    animalId: string,
    breed: string,
    birthDate: Option<Timestamp>,
    gender: Option<Gender>,
    quantity: Option<int>,
    penId: Option<string>,
    healthRecords: Option<string>,
    activityLogs: seq<ActivityLog>,
    importantDates: seq<ImportantDate>,
    imageUrl: Option<string>,
    dataAiHint: Option<string>)

  /** The individual variant: Mega or Mid Stock, with a birth date and a gender and no quantity. */
  predicate IsIndividual(a: Livestock) {
    && a.livestockType.Some? && IsIndividualType(a.livestockType.value)
    && a.birthDate.Some? && a.gender.Some? && a.quantity.None?
  }

  /** The batch variant: Mini or Micro Stock, with a quantity, an optional birth date and no gender. */
  predicate IsBatch(a: Livestock) {
    && a.livestockType.Some? && !IsIndividualType(a.livestockType.value)
    && a.quantity.Some? && a.gender.None?
  }

  /** The record belongs to the union of the two variants. */
  predicate WellFormed(a: Livestock) {
    IsIndividual(a) || IsBatch(a)
  }

  datatype Pen = Pen(id: string, name: string, description: Option<string>, allowedLivestockType: Option<LivestockType>)

  /** A pen without an allowed type accepts any category ("flexible"). */
  predicate IsFlexible(p: Pen) {
    p.allowedLivestockType.None?
  }

  /** The category list has four distinct entries, with these labels in this order. */
  lemma LivestockTypesListed()
    ensures |LivestockTypes| == 4
    ensures forall t :: t in LivestockTypes
    ensures forall i, j :: 0 <= i < j < |LivestockTypes| ==> LivestockTypes[i] != LivestockTypes[j]
    ensures TypeName(LivestockTypes[0]) == "Mega Stock" && TypeName(LivestockTypes[1]) == "Mid Stock"
    ensures TypeName(LivestockTypes[2]) == "Mini Stock" && TypeName(LivestockTypes[3]) == "Micro Stock"
    ensures forall t, u :: TypeName(t) == TypeName(u) ==> t == u
  {
    forall t ensures t in LivestockTypes {
      match t
      case MegaStock => assert LivestockTypes[0] == t;
      case MidStock => assert LivestockTypes[1] == t;
      case MiniStock => assert LivestockTypes[2] == t;
      case MicroStock => assert LivestockTypes[3] == t;
    }
  }

  /** The activity type list has five distinct entries covering every type. */
  lemma ActivityTypesListed()
    ensures |ActivityTypes| == 5
    ensures forall k :: k in ActivityTypes
    ensures forall i, j :: 0 <= i < j < |ActivityTypes| ==> ActivityTypes[i] != ActivityTypes[j]
  {
    forall k ensures k in ActivityTypes {
      match k
      case Feeding => assert ActivityTypes[0] == k;
      case Medication => assert ActivityTypes[1] == k;
      case Vaccination => assert ActivityTypes[2] == k;
      case Observation => assert ActivityTypes[3] == k;
      case Other => assert ActivityTypes[4] == k;
    }
  }

  /** In a well-formed record the type tag decides the variant, and gender
      and quantity are mutually exclusive: exactly one of them is present. */
  lemma TagDeterminesVariant(a: Livestock)
    requires WellFormed(a)
    ensures a.livestockType.Some?
    ensures IsIndividual(a) <==> IsIndividualType(a.livestockType.value)
    ensures IsBatch(a) <==> !IsIndividualType(a.livestockType.value)
    ensures a.gender.Some? <==> a.quantity.None?
    ensures IsIndividual(a) ==> a.birthDate.Some?
  {
  }
}
