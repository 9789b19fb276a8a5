/**
 * The typed side of the mapper: a monitor as read back from the service,
 * the create/update request, and their alert-contact bindings. Unset fields
 * hold Go's zero values ("" / 0 / false / empty map).
 */
module Monitors {

  /** A contact binding as read back (`MonitorAlertContact`). */
  datatype AlertContact = AlertContact(id: string, recurrence: int, threshold: int)

  datatype Monitor = Monitor(
    id: int,
    friendlyName: string,
    url: string,
    monitorType: string,
    status: string,
    interval: int,
    subType: string,
    port: int,
    keywordType: string,
    keywordValue: string,
    httpUsername: string,
    httpPassword: string,
    httpAuthType: string,
    ignoreSslErrors: bool,
    customHttpHeaders: map<string, string>,
    alertContacts: seq<AlertContact>,
    httpMethod: string,
    postType: string,
    postContentType: string,
    postValue: map<string, string>)

  /** The zero value `var m Monitor` that the reader fills in. */
  const ZeroMonitor := Monitor(0, "", "", "", "", 0, "", 0, "", "", "", "", "", false,
                               map[], [], "", "", "", map[])

  /** A contact binding as sent (`MonitorRequestAlertContact`). */
  datatype RequestContact = RequestContact(id: string, threshold: int, recurrence: int)

  /**
   * The fields shared by `MonitorCreateRequest` and `MonitorUpdateRequest`;
   * the update's identifier is passed beside it.
   */
  datatype MonitorRequest = MonitorRequest(
    friendlyName: string,
    url: string,
    monitorType: string,
    interval: int,
    subType: string,
    port: int,
    keywordType: string,
    keywordValue: string,
    httpUsername: string,
    httpPassword: string,
    httpAuthType: string,
    ignoreSslErrors: bool,
    alertContacts: seq<RequestContact>,
    customHttpHeaders: map<string, string>,
    httpMethod: string,
    postType: string,
    postContentType: string,
    postValue: map<string, string>)
}
