/** Values shared by the hotplug watch: native integer widths, the handle of a
    matched IOKit service, the events a watch yields and the error it fails with. */
module Hotplug {

  newtype u32 = x: int | 0 <= x < 0x1_0000_0000
  newtype u64 = x: int | 0 <= x < 0x1_0000_0000_0000_0000
  newtype i32 = x: int | -0x8000_0000 <= x < 0x8000_0000

  /** An io_service_t: the native handle of one USB service yielded by a notification iterator. */
  type ServiceHandle = u32

  /** The descriptor that probing a service produces; its contents are not part of this model. */
  type DeviceInfo

  datatype Option<T> = None | Some(value: T)

  /** Stable identity of a device: its IOKit registry entry id. */
  datatype DeviceId = DeviceId(registryId: u64)

  datatype HotplugEvent = Connected(info: DeviceInfo) | Disconnected(id: DeviceId)

  /** What one call of poll_next answers: an event, or "nothing yet". */
  datatype Poll = Ready(event: HotplugEvent) | Pending

  /** kern_return_t status of an IOKit call; zero is kIOReturnSuccess. */
  type IOReturn = i32
  const IOReturnSuccess: IOReturn := 0

  datatype ErrorKind = Other
  datatype Error = Error(kind: ErrorKind, message: string)
  datatype Result<T> = Ok(value: T) | Err(error: Error)
}
