/** The few cluster-API types the core uses: object names and client errors. */
module Kube {

  /** The key of a namespaced object, as in k8s.io/apimachinery/pkg/types. */
  datatype NamespacedName = NamespacedName(namespace: string, name: string)

  /**
   * What a client call can fail with. `NotFound` is the error that
   * apierrors.IsNotFound recognises; every other failure of the transport or
   * the API server is `ApiFailure`, with its cause kept as an opaque text.
   */
  datatype ApiError = NotFound | ApiFailure(cause: string)
}
