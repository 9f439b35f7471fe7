/** Shared vocabulary of the model: optional values, results that may end in a Rust
    panic, and the fixed-width unsigned integers of the Vulkan API. */
module Base {

  /** Rust's `Option`. */
  datatype Option<+T> = None | Some(value: T) {
    function GetOr(default: T): T {
      match this
      case Some(v) => v
      case None => default
    }
  }

  /** Why a run of the program aborted. Every `expect`, `unwrap` and `panic!` of the
      modelled code ends the process; the model returns the reason instead. */
  datatype Panic =
    | CallRefused              // a device call returned an error code and `expect` aborted
    | NoMemoryType             // `position(..).unwrap()` found no suitable memory type
    | NoGraphicsFamily         // `graphics_family.unwrap()` on `None`
    | NoCompatibleDevice       // no enumerated physical device passed the compatibility test
    | ValidationUnsupported    // validation requested but the layer is not available
    | InvalidUtf8              // a C string from the driver is not UTF-8
    | InteriorNul              // `CString::new` of a string that contains a NUL byte
    | UnknownDeviceType        // `panic!()` on a device type outside the four known ones
    | IndexOutOfBounds         // slice indexing past the end

  /** The outcome of an operation that either returns a value or panics. */
  datatype Result<+T> = Ok(value: T) | Panicked(panic: Panic) {
    predicate IsFailure() {
      Panicked?
    }

    function PropagateFailure<U>(): Result<U>
      requires Panicked?
    {
      Panicked(panic)
    }

    function Extract(): T
      requires Ok?
    {
      value
    }
  }

  const U32_LIMIT: int := 0x1_0000_0000
  const U32_MAX: int := 0xFFFF_FFFF

  const U64_LIMIT: int := 0x1_0000_0000_0000_0000

  type u32 = x: int | 0 <= x < U32_LIMIT
  type u64 = x: int | 0 <= x < U64_LIMIT

  /** Rust's `n as u32` on a `usize`: keeps the low 32 bits. */
  function AsU32(n: nat): (r: u32)
    ensures n < U32_LIMIT ==> r == n
    ensures r <= n
  {
    n % U32_LIMIT
  }

  /** Distinct elements, for the handles an allocator hands out. */
  predicate Distinct<T(==)>(s: seq<T>) {
    forall i, j :: 0 <= i < j < |s| ==> s[i] != s[j]
  }
}
