/** Names of Kubernetes objects. */
module Kube {
  /** types.NamespacedName */
  datatype Key = Key(ns: string, name: string)
}
