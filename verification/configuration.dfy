/** The connection settings record (`DUDeConfig`) and its defaults. */
module Configuration {

  datatype Config = Config(
    xApiToken: string,  // API token for the admin endpoints
    scheme: string,
    hostname: string,
    port: int,
    certfile: string,   // client certificate for mutual TLS
    keyfile: string,    // key of that certificate
    rootCa: string      // root CA used to check the server's certificate
  )

  /** `DUDeConfig()` with every field left at its default. */
  function Default(): Config {
    Config(xApiToken := "", scheme := "https", hostname := "", port := 5000,
           certfile := "", keyfile := "", rootCa := "")
  }
}
