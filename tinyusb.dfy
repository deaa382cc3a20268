/**
 * The parts of the TinyUSB stack and of the Adafruit device object that the
 * audio interface calls: interface and endpoint allocation, interface
 * registration, string descriptors, and the audio class's isochronous write
 * and read. Their implementations are not part of this model; each is an
 * oracle that may return any value its contract allows and records the call
 * in a ghost log, so that callers can state what they asked for and in which
 * order.
 */
module TinyUsb {
  import opened Uint

  /** The four descriptor strings the audio interface defines. */
  datatype StringName = AudioCollectionName | FeatureUnitName | InputTerminalAnalogName | OutputTerminalAnalogName

  /** Direction bit of an endpoint address: set for IN (device to host) endpoints. */
  const DIR_IN_MASK: u8 := 0x80

  /** One call into the device object, with what it returned. */
  datatype DeviceCall =
    | InterfacesAllocated(count: u8, first: u8)
    | EndpointAllocated(dirIn: bool, address: u8)
    | InterfaceAdded(ok: bool)
    | StringAdded(name: StringName, index: u8)

  /**
   * One call into the audio class transport: the bytes offered and how many
   * of them were taken, or the byte count requested and the bytes that came.
   */
  datatype Transfer =
    | Sent(offered: seq<u8>, accepted: nat)
    | Received(requested: nat, bytes: seq<u8>)

  /** The global device object. */
  class Device {
    ghost var calls: seq<DeviceCall>

    constructor ()
      ensures calls == []
    {
      calls := [];
    }

    /** Reserves `count` consecutive interface numbers and returns the first. */
    method AllocInterface(count: u8) returns (first: u8)
      modifies this
      ensures calls == old(calls) + [InterfacesAllocated(count, first)]
    {
      first :| true;
      calls := calls + [InterfacesAllocated(count, first)];
    }

    /** Reserves an endpoint of the given direction; the address carries the direction bit. */
    method AllocEndpoint(dirIn: bool) returns (address: u8)
      modifies this
      ensures dirIn <==> address >= DIR_IN_MASK
      ensures calls == old(calls) + [EndpointAllocated(dirIn, address)]
    {
      address := if dirIn then DIR_IN_MASK else 0;
      address :| dirIn <==> address >= DIR_IN_MASK;
      calls := calls + [EndpointAllocated(dirIn, address)];
    }

    /** Adds an interface to the configuration; reports whether it was accepted. */
    method AddInterface() returns (ok: bool)
      modifies this
      ensures calls == old(calls) + [InterfaceAdded(ok)]
    {
      ok :| true;
      calls := calls + [InterfaceAdded(ok)];
    }

    /** Registers a string descriptor and returns the index it is known by. */
    method AddStringDescriptor(name: StringName) returns (index: u8)
      modifies this
      ensures calls == old(calls) + [StringAdded(name, index)]
    {
      index :| true;
      calls := calls + [StringAdded(name, index)];
    }
  }

  /** The audio class endpoints, as seen from the function's side. */
  class Transport {
    ghost var log: seq<Transfer>

    constructor ()
      ensures log == []
    {
      log := [];
    }

    /** Queues at most `count` bytes from the front of `data` for the host; returns how many it took. */
    method Write(data: array<u8>, count: size_t) returns (accepted: u32)
      requires count <= data.Length
      modifies this
      ensures accepted <= count
      ensures log == old(log) + [Sent(data[..count], accepted as nat)]
    {
      accepted :| 0 <= accepted <= count;
      log := log + [Sent(data[..count], accepted as nat)];
    }

    /** Moves at most `count` bytes received from the host to the front of `data`; returns how many. */
    method Read(data: array<u8>, count: size_t) returns (got: u32)
      requires count <= data.Length
      modifies this, data
      ensures got <= count
      ensures data[got..] == old(data[got..])
      ensures log == old(log) + [Received(count as nat, data[..got])]
    {
      var empty: seq<u8> := [];
      assert |empty| <= count;
      var bytes: seq<u8> :| |bytes| <= count;
      forall i | 0 <= i < |bytes| {
        data[i] := bytes[i];
      }
      got := |bytes|;
      assert data[..got] == bytes;
      log := log + [Received(count as nat, bytes)];
    }
  }
}
