/** The constant lookup tables of the LTX uplink decoder: the in-band
    error codes, the unit profile of each fPort and the descriptions of the
    housekeeping channels. */
module LtxTables {

  /** The symbolic error a reading carries instead of a value.
      Unknown(n) stands for the message "Err" followed by n. */
  datatype ErrorKind =
    | NumberOverflow
    | NoValue
    | NoReply
    | OldValue
    | ErrorCRC
    | DataError
    | NoCachedValue
    | Unknown(code: int)

  /** The numeric code an error kind is transmitted as. */
  function ErrorCode(k: ErrorKind): int
  {
    match k
    case NumberOverflow => 0
    case NoValue => 1
    case NoReply => 2
    case OldValue => 3
    case ErrorCRC => 6
    case DataError => 7
    case NoCachedValue => 8
    case Unknown(c) => c
  }

  /** An error kind as getLTXError can produce it: Unknown never wraps a code
      that has a name of its own. */
  predicate Canonical(k: ErrorKind)
  {
    k.Unknown? ==> k.code !in {0, 1, 2, 3, 6, 7, 8}
  }

  /** getLTXError: codes 0..3 and 6..8 have names, 4, 5 and every other
      code is reported as "Err<n>". No code is lost: the result always
      gives back the code it was made from. */
  function LtxError(errno: int): (k: ErrorKind)
    ensures ErrorCode(k) == errno
    ensures Canonical(k)
  {
    match errno
    case 0 => NumberOverflow
    case 1 => NoValue
    case 2 => NoReply
    case 3 => OldValue
    case 6 => ErrorCRC
    case 7 => DataError
    case 8 => NoCachedValue
    case _ => Unknown(errno)
  }

  /** The other direction: every canonical error kind is what getLTXError
      makes of its own code, so the table is a bijection between codes and
      canonical kinds. */
  lemma LtxErrorOfCode(k: ErrorKind)
    requires Canonical(k)
    ensures LtxError(ErrorCode(k)) == k
  {
  }

  /** Every unit the decoder attaches to a reading: the physical units of
      the port profiles and the housekeeping descriptions. */
  datatype Unit =
    | DegC | RelHum | Bar | Meter | DBm | MicroSiemens
    | HkBat | HkIntTemp | HkIntHum | HkUsedEnergy | HkBaro | HkUnknown

  /** The text a unit is reported as. */
  function UnitText(u: Unit): string
  {
    match u
    case DegC => "°C"
    case RelHum => "%rH"
    case Bar => "Bar"
    case Meter => "m"
    case DBm => "dBm"
    case MicroSiemens => "uS/cm"
    case HkBat => "V(HK_Bat)"
    case HkIntTemp => "°C(HK_intTemp)"
    case HkIntHum => "%rH(HK_intHum.)"
    case HkUsedEnergy => "mAh(HK_usedEnergy)"
    case HkBaro => "mBar(HK_Baro)"
    case HkUnknown => "HK_unknown"
  }

  /** Distinct units are reported as distinct texts, so a reading's unit
      text tells which unit it is. */
  lemma UnitTextInjective(a: Unit, b: Unit)
    requires UnitText(a) == UnitText(b)
    ensures a == b
  {
  }

  /** The housekeeping descriptions. */
  predicate IsHk(u: Unit)
  {
    u in {HkBat, HkIntTemp, HkIntHum, HkUsedEnergy, HkBaro, HkUnknown}
  }

  /** deftypes: the units that successive standard readings on a known
      fPort cycle through. Ports 10..15 have a profile; every other port,
      including the free ports 1..9, has none. No profile unit is a
      housekeeping description. */
  function PortUnits(port: int): (u: seq<Unit>)
    ensures |u| > 0 <==> 10 <= port <= 15
    ensures forall i :: 0 <= i < |u| ==> !IsHk(u[i])
  {
    match port
    case 10 => [DegC]
    case 11 => [RelHum, DegC]
    case 12 => [Bar, DegC]
    case 13 => [Meter, DegC]
    case 14 => [Meter, DBm]
    case 15 => [DegC, MicroSiemens]
    case _ => []
  }

  /** unitDescrHK: the description of housekeeping channels 90..94; any
      other channel gets the placeholder, never an error. */
  function HkUnit(ch: int): (u: Unit)
    ensures IsHk(u)
    ensures u == HkUnknown <==> !(90 <= ch <= 94)
  {
    match ch
    case 90 => HkBat
    case 91 => HkIntTemp
    case 92 => HkIntHum
    case 93 => HkUsedEnergy
    case 94 => HkBaro
    case _ => HkUnknown
  }

  /** Distinct known housekeeping channels get distinct descriptions. */
  lemma HkUnitInjective(a: int, b: int)
    requires 90 <= a <= 94 && 90 <= b <= 94 && HkUnit(a) == HkUnit(b)
    ensures a == b
  {
  }
}
