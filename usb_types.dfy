/** Values the host hands to the activity: devices, their interfaces and their endpoints.
    An endpoint is kept as the two bytes of its descriptor that the activity's checks look
    at (section 9.6.6 of the USB 2.0 specification); its transfer type and direction are
    decoded from them the way the host's endpoint object does. */
module UsbTypes {

  datatype Option<+T> = None | Some(value: T)

  /** A data byte as it travels over a bulk endpoint. */
  newtype byte = b: int | 0 <= b < 256

  // Transfer-type codes: the low two bits of bmAttributes.
  const XferControl: int := 0
  const XferIsochronous: int := 1
  const XferBulk: int := 2
  const XferInterrupt: int := 3

  // Direction codes: bit 7 of bEndpointAddress.
  const DirOut: int := 0x00
  const DirIn: int := 0x80

  /** bEndpointAddress and bmAttributes of one endpoint descriptor. */
  datatype Endpoint = Endpoint(address: bv8, attributes: bv8)

  /** The endpoint's transfer type, one of the four codes above. */
  function TypeOf(e: Endpoint): (t: int)
    ensures t == XferControl || t == XferIsochronous || t == XferBulk || t == XferInterrupt
    ensures t == XferBulk <==> e.attributes & 0x03 == 0x02
  {
    (e.attributes & 0x03) as int
  }

  /** The endpoint's direction: IN exactly when bit 7 of the address is set. */
  function DirectionOf(e: Endpoint): (d: int)
    ensures d == DirOut || d == DirIn
    ensures d == DirIn <==> e.address >= 0x80
  {
    (e.address & 0x80) as int
  }

  /** One interface of a device: its endpoints in index order. */
  datatype UsbInterface = UsbInterface(endpoints: seq<Endpoint>)

  /** A device as enumerated by the host: its name and its interfaces in index order. */
  datatype UsbDevice = UsbDevice(name: string, interfaces: seq<UsbInterface>)
}
