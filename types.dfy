/** Values the activity screens receive from the platform and from the
    mode-selection screen: accelerometer samples, GPS fixes and the mode. */
module Types {

  datatype Option<T> = None | Some(value: T)

  /** One accelerometer reading, one component per axis. */
  datatype Sample = Sample(x: real, y: real, z: real)

  /** A sample together with the clock reading, in milliseconds, taken when
      the listener ran (the screens read `Date.now()` there). */
  datatype Timed = Timed(sample: Sample, time: int)

  /** A GPS fix: latitude and longitude in degrees. */
  datatype Location = Location(latitude: real, longitude: real)

  /** The great-circle (haversine) distance in km between two fixes. It is
      floating-point trigonometry in the program, so the model keeps it as a
      parameter about which nothing is assumed. */
  type DistFn = (Location, Location) -> real

  /** An activity mode as chosen on the selection screen: its name
      ("Andar", "Correr" or "Ciclismo") and its goal (steps, or km). */
  datatype Mode = Mode(name: string, goal: real)

  /** `Math.abs` */
  function Abs(r: real): real
  {
    if r < 0.0 then -r else r
  }
}
