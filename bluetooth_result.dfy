/**
 * The pair a Bluetooth read hands back: the message that answers the read
 * and the bytes read. The bytes are copied into an array of the wrapper's
 * own, so the caller's buffer can be reused. A null buffer is `None`.
 */
module BluetoothResult {
  import opened Common

  class BluetoothResultWrapper {
    var message: Message
    var value: array<byte>

    /** The message kept as given; the bytes copied into a new array, empty for a null buffer. */
    constructor (message: Message, source: Option<array<byte>>)
      ensures this.message == message
      ensures fresh(value)
      ensures source.None? ==> value.Length == 0
      ensures source.Some? ==> value[..] == source.value[..]
    {
      var copy: array<byte>;
      if source.None? {
        copy := new byte[0];
      } else {
        var a := source.value;
        copy := new byte[a.Length];
        var i := 0;
        while i < a.Length
          invariant 0 <= i <= a.Length
          invariant copy[..i] == a[..i]
        {
          copy[i] := a[i];
          i := i + 1;
        }
        assert copy[..] == copy[..i];
      }
      this.message := message;
      value := copy;
    }
  }

  /**
   * Writing into the caller's buffer after the wrapper is made leaves the
   * wrapper's bytes as they were read.
   */
  method CopyIsIndependent(message: Message, buffer: array<byte>, b: byte) returns (w: BluetoothResultWrapper)
    requires buffer.Length > 0
    modifies buffer
    ensures w.value[..] == old(buffer[..]) && buffer[0] == b
  {
    w := new BluetoothResultWrapper(message, Some(buffer));
    buffer[0] := b;
  }
}
