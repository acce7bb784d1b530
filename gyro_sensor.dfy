// `GyroSensor`: the BNO055 orientation sensor read over I2C. The model keeps
// the register-level decoding (chip identification, signed 16-bit axis words,
// the calibration status byte) and the start/stop flags; the floating-point
// scaling, the trigonometry and the heading integration are left out.
module Gyro {
  import opened Wrappers

  type Byte = x: int | 0 <= x < 256

  const ChipId: Byte := 0xA0
  const OperationModeConfig: Byte := 0x00
  const OperationModeAccGyro: Byte := 0x05

  /** `struct.unpack('<h', bytes([lo, hi]))[0]`: a little-endian two's-complement word. */
  function Int16LE(lo: Byte, hi: Byte): int
  {
    var v := lo + 256 * hi;
    if v >= 32768 then v - 65536 else v
  }

  /** The two bytes a signed 16-bit value is stored as, low byte first. */
  function EncodeInt16LE(x: int): (Byte, Byte)
    requires -32768 <= x <= 32767
  {
    var u := if x < 0 then x + 65536 else x;
    (u % 256, u / 256)
  }

  /** Every word decodes into the signed 16-bit range, and decoding undoes encoding both ways. */
  lemma Int16LERoundTrip(lo: Byte, hi: Byte, x: int)
    ensures -32768 <= Int16LE(lo, hi) <= 32767
    ensures EncodeInt16LE(Int16LE(lo, hi)) == (lo, hi)
    ensures -32768 <= x <= 32767 ==> Int16LE(EncodeInt16LE(x).0, EncodeInt16LE(x).1) == x
    ensures hi < 128 <==> Int16LE(lo, hi) >= 0
  {
  }

  /** The (x, y, z) axis words of a six-byte block; `None` when the block is short and unpacking raises. */
  function Axes(block: seq<Byte>): Option<(int, int, int)>
  {
    if |block| < 6 then None
    else Some((Int16LE(block[0], block[1]), Int16LE(block[2], block[3]), Int16LE(block[4], block[5])))
  }

  /** The block that stores three signed words, as the sensor lays them out. */
  function AxesBlock(x: int, y: int, z: int): seq<Byte>
    requires -32768 <= x <= 32767 && -32768 <= y <= 32767 && -32768 <= z <= 32767
  {
    [EncodeInt16LE(x).0, EncodeInt16LE(x).1, EncodeInt16LE(y).0, EncodeInt16LE(y).1,
     EncodeInt16LE(z).0, EncodeInt16LE(z).1]
  }

  /** Reading a block back gives the three words stored in it. */
  lemma AxesRoundTrip(x: int, y: int, z: int)
    requires -32768 <= x <= 32767 && -32768 <= y <= 32767 && -32768 <= z <= 32767
    ensures Axes(AxesBlock(x, y, z)) == Some((x, y, z))
  {
    Int16LERoundTrip(0, 0, x);
    Int16LERoundTrip(0, 0, y);
    Int16LERoundTrip(0, 0, z);
  }

  /** `(sys, gyro, accel, mag)`, each 0..3. */
  datatype Calibration = Calibration(sys: nat, gyro: nat, accel: nat, mag: nat)

  /** The four 2-bit fields `(calib >> 6) & 3`, `(calib >> 4) & 3`, `(calib >> 2) & 3`, `calib & 3`. */
  function DecodeCalibration(calib: Byte): Calibration
  {
    Calibration((calib / 64) % 4, (calib / 16) % 4, (calib / 4) % 4, calib % 4)
  }

  /** The status byte that holds four 2-bit fields, system status in the top bits. */
  function EncodeCalibration(c: Calibration): int
  {
    c.sys * 64 + c.gyro * 16 + c.accel * 4 + c.mag
  }

  predicate FieldsInRange(c: Calibration)
  {
    c.sys < 4 && c.gyro < 4 && c.accel < 4 && c.mag < 4
  }

  /** For the field widths used here, quotient and remainder are determined by `x == q * d + r` with `0 <= r < d`. */
  lemma DivModUnique(x: int, d: int, q: int, r: int)
    requires d == 4 || d == 16 || d == 64
    requires 0 <= r < d && x == q * d + r
    ensures x / d == q && x % d == r
  {
    if d == 4 {
      assert x == q * 4 + r;
    } else if d == 16 {
      assert x == q * 16 + r;
    } else {
      assert x == q * 64 + r;
    }
  }

  /** Each field is in 0..3, and splitting and recombining the byte are inverse to each other. */
  lemma CalibrationRoundTrip(calib: Byte, c: Calibration)
    ensures FieldsInRange(DecodeCalibration(calib))
    ensures EncodeCalibration(DecodeCalibration(calib)) == calib
    ensures FieldsInRange(c) ==> 0 <= EncodeCalibration(c) < 256
                                  && DecodeCalibration(EncodeCalibration(c)) == c
  {
    DecodeEncode(calib);
    if FieldsInRange(c) {
      EncodeDecode(c);
    }
  }

  lemma DecodeEncode(calib: Byte)
    ensures FieldsInRange(DecodeCalibration(calib))
    ensures EncodeCalibration(DecodeCalibration(calib)) == calib
  {
    var a, r1 := calib / 64, calib % 64;
    var b, r2 := r1 / 16, r1 % 16;
    var c, m := r2 / 4, r2 % 4;
    assert a < 4;
    DivModUnique(calib, 16, 4 * a + b, r2);
    DivModUnique(4 * a + b, 4, a, b);
    DivModUnique(calib, 4, 16 * a + 4 * b + c, m);
    DivModUnique(16 * a + 4 * b + c, 4, 4 * a + b, c);
    DivModUnique(calib, 64, a, r1);
    DivModUnique(a, 4, 0, a);
  }

  lemma EncodeDecode(c: Calibration)
    requires FieldsInRange(c)
    ensures 0 <= EncodeCalibration(c) < 256 && DecodeCalibration(EncodeCalibration(c)) == c
  {
    var x := EncodeCalibration(c);
    DivModUnique(x, 64, c.sys, c.gyro * 16 + c.accel * 4 + c.mag);
    DivModUnique(x, 16, c.sys * 4 + c.gyro, c.accel * 4 + c.mag);
    DivModUnique(c.sys * 4 + c.gyro, 4, c.sys, c.gyro);
    DivModUnique(x, 4, c.sys * 16 + c.gyro * 4 + c.accel, c.mag);
    DivModUnique(c.sys * 16 + c.gyro * 4 + c.accel, 4, c.sys * 4 + c.gyro, c.accel);
    DivModUnique(c.sys, 4, 0, c.sys);
  }

  /** `is_calibrated`: `all(c >= 3 for c in self.calibration)`. */
  predicate IsCalibrated(c: Calibration)
  {
    c.sys >= 3 && c.gyro >= 3 && c.accel >= 3 && c.mag >= 3
  }

  /** Fully calibrated exactly when the status byte reads 0xFF. */
  lemma CalibratedIffFull(calib: Byte)
    ensures IsCalibrated(DecodeCalibration(calib)) <==> calib == 0xFF
  {
    var c := DecodeCalibration(calib);
    CalibrationRoundTrip(calib, c);
    if IsCalibrated(c) {
      assert c == Calibration(3, 3, 3, 3);
    }
  }

  /** What the bus does during `__init__`. */
  datatype Bus = NoSmbus | ChipReadFails | Chip(id: Byte, modeWritesSucceed: bool)

  class GyroSensor {
    /** `self.sensor` is True: the chip answered with the right ID and took its mode. */
    var sensor: bool
    var running: bool
    var hasCallback: bool
    var threadsStarted: nat
    /** The values written to the operation-mode register during setup, in order. */
    var modeWrites: seq<Byte>
    /** Whether `bus.close()` was called after a wrong chip ID. */
    var busClosed: bool
    /** The raw accelerometer and gyroscope words of the last full read. */
    var accelRaw: (int, int, int)
    var gyroRaw: (int, int, int)
    var temperature: Byte
    var calibration: Calibration

    /**
     * `GyroSensor(...)`: the sensor counts as initialised only when smbus is
     * there, the chip reads 0xA0 and the mode writes succeed; a wrong chip ID
     * closes the bus before any mode write.
     */
    constructor (bus: Bus)
      ensures sensor == (bus.Chip? && bus.id == ChipId && bus.modeWritesSucceed)
      ensures busClosed == (bus.Chip? && bus.id != ChipId)
      ensures bus.Chip? && bus.id != ChipId ==> modeWrites == []
      ensures sensor ==> modeWrites == [OperationModeConfig, OperationModeAccGyro]
      ensures !running && !hasCallback && threadsStarted == 0
      ensures calibration == Calibration(0, 0, 0, 0) && temperature == 0
      ensures accelRaw == (0, 0, 0) && gyroRaw == (0, 0, 0)
    {
      sensor := false;
      running := false;
      hasCallback := false;
      threadsStarted := 0;
      modeWrites := [];
      busClosed := false;
      accelRaw := (0, 0, 0);
      gyroRaw := (0, 0, 0);
      temperature := 0;
      calibration := Calibration(0, 0, 0, 0);
      new;
      if bus.NoSmbus? || bus.ChipReadFails? {
        return;
      }
      if bus.id != ChipId {
        busClosed := true;
        return;
      }
      if !bus.modeWritesSucceed {
        return;
      }
      modeWrites := [OperationModeConfig, OperationModeAccGyro];
      sensor := true;
    }

    /** `start(callback, rate_hz)`: refused without a sensor; a second start reports success and does nothing. */
    method Start(callbackGiven: bool) returns (ok: bool)
      modifies this
      ensures ok == sensor && sensor == old(sensor)
      ensures !sensor || old(running) ==>
        running == old(running) && hasCallback == old(hasCallback) && threadsStarted == old(threadsStarted)
      ensures sensor && !old(running) ==> running && hasCallback == callbackGiven && threadsStarted == old(threadsStarted) + 1
      ensures calibration == old(calibration) && temperature == old(temperature)
    {
      if !sensor {
        return false;
      }
      if running {
        return true;
      }
      hasCallback := callbackGiven;
      running := true;
      threadsStarted := threadsStarted + 1;
      return true;
    }

    method Stop()
      modifies this
      ensures !running && sensor == old(sensor) && hasCallback == old(hasCallback)
      ensures threadsStarted == old(threadsStarted) && calibration == old(calibration)
    {
      running := false;
    }

    /**
     * The register reads of one pass of `_read_loop`. A short block makes the
     * unpack raise: what was assigned before it stays, nothing after it
     * changes, and the pass reports the error.
     */
    method ReadOnce(accelBlock: seq<Byte>, gyroBlock: seq<Byte>, temp: Byte, calib: Byte) returns (ok: bool)
      modifies this
      ensures ok == (Axes(accelBlock).Some? && Axes(gyroBlock).Some?)
      ensures accelRaw == if Axes(accelBlock).Some? then Axes(accelBlock).value else old(accelRaw)
      ensures gyroRaw == if ok then Axes(gyroBlock).value else old(gyroRaw)
      ensures temperature == if ok then temp else old(temperature)
      ensures calibration == if ok then DecodeCalibration(calib) else old(calibration)
      ensures sensor == old(sensor) && running == old(running) && hasCallback == old(hasCallback)
      ensures threadsStarted == old(threadsStarted)
    {
      var accel := Axes(accelBlock);
      if accel.None? {
        return false;
      }
      accelRaw := accel.value;
      var gyro := Axes(gyroBlock);
      if gyro.None? {
        return false;
      }
      gyroRaw := gyro.value;
      temperature := temp;
      calibration := DecodeCalibration(calib);
      return true;
    }

    /** `is_calibrated()`. */
    function IsCalibratedNow(): bool
      reads this
    {
      IsCalibrated(calibration)
    }
  }
}
