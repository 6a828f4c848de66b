/** Fixed identifiers of the server and of the extension's contributions. */
module Constants {
  const McpSharkPort: nat := 9853
  const McpSharkBaseUrl: string := "http://localhost:9853"
  const McpSharkSettingsUrl: string := "http://localhost:9853/api/settings"
  const ViewIdTraffic: string := "mcp-shark-traffic"

  const StartServerId: string := "mcp-shark.viewer.startServer"
  const StopServerId: string := "mcp-shark.viewer.stopServer"
  const ShowDatabasePanelId: string := "mcp-shark.viewer.showDatabasePanel"
  const OpenInspectorId: string := "mcp-shark.viewer.openInspector"
  const RefreshId: string := "mcp-shark.viewer.refresh"
}
