/** Linux error numbers used by the modelled drivers (include/uapi/asm-generic/errno-base.h).
    Functions return them negated, as the kernel does. */
module Errno {
  const ENOMEM: int := 12
  const ENODEV: int := 19
  const EINVAL: int := 22
}
