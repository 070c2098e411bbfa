/** Value types shared by the whole model of libctrans. */
module Types {

  /** A value that may be absent; `None` plays the role of a NULL pointer. */
  datatype Option<+T> = None | Some(value: T)

  /** GLib's `guint32`. */
  type uint32 = x: int | 0 <= x < 0x1_0000_0000

  /** GLib's `guint64`. */
  type uint64 = x: int | 0 <= x < 0x1_0000_0000_0000_0000

  /** A non-NULL address handed out by the allocator and tracked by a transaction. */
  type Ptr = p: int | p > 0 witness 1

  /** The (non-NULL) address of a `Transaction` object. */
  type Handle = h: int | h > 0 witness 1
}
