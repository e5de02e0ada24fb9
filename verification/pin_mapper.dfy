/**
 The lookup from a configured GPIO number to the ESP32 wake-up pin identifier.
 Only the RTC-capable pins of the chip can wake it from deep sleep; every other
 number is refused with an error that names it.
 */
module PinMapper {
  import opened Wrappers

  /** An unsigned 8-bit value, the type of the configured pin number. */
  newtype byte = x: int | 0 <= x < 256

  /** The wake-up pins the sleep driver can name. */
  datatype WakeupGpioPin =
    | Pin0 | Pin2 | Pin4
    | Pin12 | Pin13 | Pin14 | Pin15
    | Pin25 | Pin26 | Pin27
    | Pin32 | Pin33 | Pin34 | Pin35 | Pin36 | Pin37 | Pin38 | Pin39

  /** The error raised for a number outside the table (a NotSupportedException). */
  datatype PinError = NotSupported(pinNumber: byte)

  /** The GPIO numbers of the RTC-capable pins. */
  const WakeCapablePins: set<byte> :=
    {0, 2, 4, 12, 13, 14, 15, 25, 26, 27, 32, 33, 34, 35, 36, 37, 38, 39}

  /** The GPIO number a wake-up pin identifier stands for. */
  function PinNumber(w: WakeupGpioPin): (n: byte)
    ensures n in WakeCapablePins
  {
    match w
    case Pin0 => 0
    case Pin2 => 2
    case Pin4 => 4
    case Pin12 => 12
    case Pin13 => 13
    case Pin14 => 14
    case Pin15 => 15
    case Pin25 => 25
    case Pin26 => 26
    case Pin27 => 27
    case Pin32 => 32
    case Pin33 => 33
    case Pin34 => 34
    case Pin35 => 35
    case Pin36 => 36
    case Pin37 => 37
    case Pin38 => 38
    case Pin39 => 39
  }

  /** The whitelist lookup: a wake-up pin for an RTC-capable number, an error naming the number otherwise. */
  function MapPinNumberToWakeUpEnum(pinNumber: byte): (r: Result<WakeupGpioPin, PinError>)
    ensures r.Success? <==> pinNumber in WakeCapablePins
    ensures r.Success? ==> PinNumber(r.value) == pinNumber
    ensures r.Failure? ==> r.error == NotSupported(pinNumber)
  {
    match pinNumber
    case 0 => Success(Pin0)
    case 2 => Success(Pin2)
    case 4 => Success(Pin4)
    case 12 => Success(Pin12)
    case 13 => Success(Pin13)
    case 14 => Success(Pin14)
    case 15 => Success(Pin15)
    case 25 => Success(Pin25)
    case 26 => Success(Pin26)
    case 27 => Success(Pin27)
    case 32 => Success(Pin32)
    case 33 => Success(Pin33)
    case 34 => Success(Pin34)
    case 35 => Success(Pin35)
    case 36 => Success(Pin36)
    case 37 => Success(Pin37)
    case 38 => Success(Pin38)
    case 39 => Success(Pin39)
    case _ => Failure(NotSupported(pinNumber))
  }

  /** Every wake-up pin is reached by exactly its own number. */
  lemma MapPinRoundTrip(w: WakeupGpioPin)
    ensures MapPinNumberToWakeUpEnum(PinNumber(w)) == Success(w)
  {
  }

  /** Two accepted numbers that map to the same wake-up pin are the same number. */
  lemma MapPinInjective(m: byte, n: byte)
    requires MapPinNumberToWakeUpEnum(m).Success? && MapPinNumberToWakeUpEnum(n).Success?
    requires MapPinNumberToWakeUpEnum(m).value == MapPinNumberToWakeUpEnum(n).value
    ensures m == n
  {
  }
}
