/** Who may use a capability (crates/core/src/capability.rs). */
module Access {
  datatype AccessMode = Free | Restricted | Private
}
