/** The network selector of the command line. */
module Cli {

  datatype Networks = Testnet | Mainnet

  /** `#[arg(long, default_value = "testnet")]`. */
  const DefaultNetwork: Networks := Testnet
}
