/** Logical network endpoints. */
module Sides {

  /**
   * A side of the application. Sides are objects: two sides may carry the same
   * name and still be different endpoints (the transport table keys on identity).
   */
  class NetworkSide {
    const name: string

    constructor (name: string)
      ensures this.name == name
    {
      this.name := name;
    }
  }
}
