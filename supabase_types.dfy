/** The rows of the `vault_items` table as the client receives them. */
module SupabaseTypes {

  /** One stored vault entry: identifiers, the plaintext title, the opaque
      encrypted payload and the two timestamps, all carried as strings. */
  datatype VaultItem = VaultItem(
    id: string,
    userId: string,
    title: string,
    encryptedBlob: string,
    createdAt: string,
    updatedAt: string)
}
