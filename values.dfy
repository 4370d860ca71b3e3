/** Value types shared by the Communicator model: the Object and Config
    descriptors a caller hands to Create, the 32-bit unsigned integers they
    carry, and a small Option wrapper. */
module Values {

  /** An unsigned 32-bit integer, as `uint32_t` in the source. */
  newtype u32 = x: int | 0 <= x < 0x1_0000_0000

  /** `~0` as a `uint32_t`: the version value meaning "unspecified". */
  const Unspecified: u32 := 0xFFFF_FFFF

  datatype Option<T> = None | Some(value: T)

  /** What to instantiate in the remote process. (The source's default
      constructor leaves the strings empty and sets both numbers to `~0`.) */
  datatype Object = Object(
    locator: string,
    className: string,
    interfaceId: u32,
    version: u32,
    user: string,
    group: string)

  /** How to launch and host the remote process. */
  datatype Config = Config(
    connector: string,
    hostApplication: string,
    persistentPath: string,
    systemPath: string,
    dataPath: string,
    applicationPath: string,
    proxyStubPath: string)
}
