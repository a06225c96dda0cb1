/** Values the other modules share: option and result types, the last-boot
    record, certificates, and what a file can hold. */
module Types {

  datatype Option<+T> = None | Some(value: T)

  datatype Result<+T> = Ok(value: T) | Err

  function SetOf<T(==)>(xs: seq<T>): set<T> {
    set x | x in xs
  }

  /** internal/state.LastBoot. `deploymentID` is empty on a host without ostree. */
  datatype LastBoot = LastBoot(version: string, deploymentID: string, bootID: string)

  /** A certificate: the key it certifies, the key that signed it, and its
      validity in nanoseconds. A CA certificate has `issuer == key`. */
  datatype Cert = Cert(key: nat, issuer: nat, notBefore: int, notAfter: int)

  /** How a kubeconfig authenticates: by a certificate of its own, or by a file. */
  datatype Credential = Embedded(client: Cert) | Referenced(pem: seq<string>)

  /** What a regular file holds. JSON, PEM and kubeconfig text appear as the
      value they decode to; `Bytes` is everything that decodes to none of them. */
  datatype Data =
    | Bytes(id: int)
    | BootRecord(boot: LastBoot)
    | CertFile(cert: Cert)
    | KeyFile(key: nat)
    | Kubeconfig(cluster: int, user: Credential)
}
