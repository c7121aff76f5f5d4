/** The part of the configuration registry the folder models read. */
module Schema {

  /** Which configuration layer may set a property. */
  datatype ConfigurationScope = Application | Window | Workspace | Folder | LanguageOverridable

  /** The registered schema of one property: its scope and whether it can trigger execution. */
  datatype PropertySchema = PropertySchema(scope: ConfigurationScope, isExecutable: bool)

  /**
   * The registry's `getConfigurationProperties()`: qualified key to schema.
   * A key outside the map has no registered schema.
   */
  type ConfigurationProperties = map<string, PropertySchema>
}
